// The runner's own control flow: loops that push messages and results while
// writing journal rows, shown to be runs of the step model.
module AgentProcess {
  import opened Basics
  import opened Json
  import opened StepTypes
  import opened Runs
  import opened Agent
  import opened AgentTheorems

  /** Does every earlier row for this id allow the call to be repeated? */
  method ToolReplayMatches(rows: seq<StepRow>, run: string, name: string, id: string, input: Value, current: Option<Contract>)
    returns (matches: bool)
    ensures matches <==> ReplayAllowed(rows, run, name, id, input, current)
  {
    if !UsableContract(current, name) || id == "" {
      return false;
    }
    var found := false;
    for i := 0 to |rows|
      invariant found <==> exists k :: 0 <= k < i && ToolRow(rows[k], id)
      invariant forall k :: 0 <= k < i && ToolRow(rows[k], id) ==> RowAllowsReplay(rows[k], run, name, id, input, current.value)
    {
      if ToolRow(rows[i], id) {
        found := true;
        if !RowAllowsReplay(rows[i], run, name, id, input, current.value) {
          return false;
        }
      }
    }
    return found;
  }

  lemma {:induction false} ActAllThen(s: AgentState, events: seq<Event>, rest: seq<Event>)
    ensures ActAll(s, events + rest) == ActAll(ActAll(s, events), rest)
    decreases |events|
  {
    hide Act;
    if events == [] {
      assert events + rest == rest;
    } else {
      assert (events + rest)[1..] == events[1..] + rest;
      ActAllThen(Act(s, events[0]), events[1..], rest);
    }
  }

  lemma ActOne(s: AgentState, e: Event)
    ensures ActAll(s, [e]) == Act(s, e)
  {
    hide Act;
    assert ActAll(Act(s, e), [e][1..]) == Act(s, e);
  }

  lemma ActTwo(s: AgentState, e: Event, f: Event)
    ensures ActAll(s, [e, f]) == Act(Act(s, e), f)
  {
    hide Act;
    assert [e, f] == [e] + [f];
    ActAllThen(s, [e], [f]);
    ActOne(s, e);
    ActOne(Act(s, e), f);
  }

  /** The steps a process takes by itself: reading its gate, and everything but foreign transactions and resumes. */
  predicate Own(trace: seq<Event>, run: string) {
    forall k :: 0 <= k < |trace| ==> !trace[k].Resume? && (trace[k].Other? ==> trace[k].op == ReadGate(run))
  }

  /** What a model call or a tool call turns out to do; an empty supply means the process dies there. */
  datatype Answered = Said(response: Response) | Refused(error: string)
  datatype Performed = Rejected(error: string) | Done(outcome: Outcome)

  datatype ToolStep = Replied(content: string, isError: bool) | Review | Died

  /** A live process: the journal it writes, the effects it causes, and what the world has in store. */
  class Process {
    const run: string
    const cfg: Config
    var db: Db
    var log: seq<Dispatch>
    var answers: seq<Answered>
    var performances: seq<Performed>

    constructor (run: string, cfg: Config, db: Db, log: seq<Dispatch>, answers: seq<Answered>, performances: seq<Performed>)
      ensures this.run == run && this.cfg == cfg && this.db == db && this.log == log
      ensures this.answers == answers && this.performances == performances
    {
      this.run, this.cfg, this.db, this.log := run, cfg, db, log;
      this.answers, this.performances := answers, performances;
    }

    ghost function At(pc: Pc): AgentState
      reads this
    {
      AgentState(db, run, Some(Live(cfg, pc)), log)
    }

    ghost function Gone(): AgentState
      reads this
    {
      AgentState(db, run, None, log)
    }

    /** Ends the process with a final run status. */
    method Stop(status: string) returns (ghost trace: seq<Event>)
      modifies this
      ensures Own(trace, run)
      ensures ActAll(old(At(Stopping(status))), trace) == Gone()
    {
      hide SetRunStatus;
      ghost var start := At(Stopping(status));
      db := SetRunStatus(db, run, status).0;
      trace := [Tick];
      ActOne(start, Tick);
    }

    /** Announces one tool call, performs it and journals its outcome. */
    method ExecuteToolStep(turn: Turn, attempt: int) returns (r: ToolStep, ghost trace: seq<Event>)
      requires TurnShape(turn) && |turn.results| < |turn.uses|
      requires Act(At(Tools(turn)), Tick) == StartTool(At(Tools(turn)), turn, attempt)
      requires forall error :: Private(turn.uses[|turn.results|].name) ==>
                 RejectNext(At(Tools(turn)), error) == At(Tools(Answer(turn, "Error: " + error, true)))
      modifies this
      ensures Own(trace, run)
      ensures match r
        case Replied(content, isError) =>
          ActAll(old(At(Tools(turn))), trace) == At(Tools(Answer(turn, content, isError)))
        case Review => ActAll(old(At(Tools(turn))), trace) == At(Stopping("needs_review"))
        case Died => ActAll(old(At(Tools(turn))), trace) == Gone()
    {
      hide GateOpen, ValidContract, RowsOf, CompleteStep, FailStep, TickTools, ReplayAllowed, CompletedRows, RejectNext;
      ghost var start := At(Tools(turn));
      var use := turn.uses[|turn.results|];
      if performances == [] {
        trace := [Crash];
        ActOne(start, Crash);
        return Died, trace;
      }
      var next := performances[0];
      performances := performances[1..];
      if next.Rejected? && Private(use.name) {
        trace := [RejectPrivate(next.error)];
        ActOne(start, RejectPrivate(next.error));
        return Replied("Error: " + next.error, true), trace;
      }
      var contract := ContractOf(cfg, use.name);
      if contract.Some? && !ValidContract(contract.value) {
        trace := [Tick];
        ActOne(start, Tick);
        return Replied("Error: invalid tool resume contract", true), trace;
      }
      var (db', started) := StartStep(db, run, ToolCall(use.name, use.input, use.id, ToolKey(run, use.id), contract), attempt);
      db := db';
      ghost var announced := Act(start, Tick);
      if started.Err? {
        trace := [Tick];
        ActOne(start, Tick);
        return Review, trace;
      }
      assert announced == At(Dispatching(turn, started.value));
      if next.Rejected? {
        trace := [Tick, Crash];
        ActTwo(start, Tick, Crash);
        return Died, trace;
      }
      ActOne(start, Tick);
      r, trace := Perform(turn, started.value, next.outcome);
      ActAllThen(start, [Tick], trace);
      trace := [Tick] + trace;
    }

    /** The effect itself, and the row that records how it went. */
    method Perform(turn: Turn, n: int, outcome: Outcome) returns (r: ToolStep, ghost trace: seq<Event>)
      requires TurnShape(turn) && |turn.results| < |turn.uses|
      modifies this
      ensures Own(trace, run)
      ensures performances == old(performances)
      ensures !r.Died?
      ensures match r
        case Replied(content, isError) =>
          ActAll(old(At(Dispatching(turn, n))), trace) == At(Tools(Answer(turn, content, isError)))
        case Review => ActAll(old(At(Dispatching(turn, n))), trace) == At(Stopping("needs_review"))
        case Died => true
    {
      hide CompleteStep, FailStep, TickTools;
      ghost var start := At(Dispatching(turn, n));
      var use := turn.uses[|turn.results|];
      log := log + [Dispatch(n, use.id, use.name, use.input, ToolKey(run, use.id))];
      assert Act(start, Effect(outcome)) == At(Settling(turn, n, outcome));
      trace := [Effect(outcome), Tick];
      ActTwo(start, Effect(outcome), Tick);
      match outcome
      case Success(content) =>
        db := CompleteStep(db, run, n, Content(content));
        r := Replied(content, false);
      case Errored(error) =>
        db := FailStep(db, run, n, error);
        r := Replied("Error: " + error, true);
      case Ambiguous(error) =>
        db := FailStep(db, run, n, error);
        r := Review;
    }

    /** The tools of a live response, one after another; `None` when the process is over. */
    method RunTools(messages: seq<Message>, uses: seq<Block>, left: nat) returns (r: Option<seq<ToolResult>>, ghost trace: seq<Event>)
      requires forall i :: 0 <= i < |uses| ==> uses[i].ToolUse?
      modifies this
      ensures Own(trace, run)
      ensures r.Some? ==> |r.value| == |uses|
                          && ActAll(old(At(Tools(Turn(messages, uses, [], None, left)))), trace)
                             == At(Tools(Turn(messages, uses, r.value, None, left)))
      ensures r.None? ==> ActAll(old(At(Tools(Turn(messages, uses, [], None, left)))), trace) == Gone()
    {
      hide Act, ActAll, RejectNext, StartTool;
      ghost var start := At(Tools(Turn(messages, uses, [], None, left)));
      var results: seq<ToolResult> := [];
      trace := [];
      assert ActAll(start, trace) == start by { ActNone(start); }
      while |results| < |uses|
        invariant |results| <= |uses| && Own(trace, run)
        invariant ActAll(start, trace) == At(Tools(Turn(messages, uses, results, None, left)))
      {
        var turn := Turn(messages, uses, results, None, left);
        ghost var here := At(Tools(turn));
        LiveTool(here, turn);
        var step, more := ExecuteToolStep(turn, 1);
        ActAllThen(start, trace, more);
        trace := trace + more;
        match step
        case Replied(content, isError) =>
          results := results + [ToolResult(uses[|results|].id, content, isError)];
        case Review =>
          ghost var last := Stop("needs_review");
          ActAllThen(start, trace, last);
          trace := trace + last;
          return None, trace;
        case Died =>
          return None, trace;
      }
      r := Some(results);
    }

    /** The loop that alternates model calls and tools until the run stops. */
    method AgentLoop(initial: seq<Message>, firstAttempt: int) returns (ghost trace: seq<Event>)
      modifies this
      ensures Own(trace, run)
      ensures ActAll(old(At(LoopTop(initial, firstAttempt, MAX_LOOP_STEPS))), trace) == Gone()
    {
      hide Act, ActAll, GateGoalRun, StartStep, AfterReply;
      ghost var start := At(LoopTop(initial, firstAttempt, MAX_LOOP_STEPS));
      var messages, attempt, left := initial, firstAttempt, MAX_LOOP_STEPS;
      trace := [];
      assert ActAll(start, trace) == start by { ActNone(start); }
      while left > 0
        invariant left >= 0 && Own(trace, run)
        invariant ActAll(start, trace) == At(LoopTop(messages, attempt, left))
        decreases left
      {
        ghost var more;
        var next: Option<seq<Message>>;
        next, more := Iterate(messages, attempt, left);
        ActAllThen(start, trace, more);
        trace := trace + more;
        if next.None? {
          return trace;
        }
        messages, attempt, left := next.value, 1, left - 1;
      }
      ghost var here := At(LoopTop(messages, attempt, 0));
      ghost var last := Stop("failed");
      assert Act(here, Tick) == AgentState(here.db, run, Some(Live(cfg, Stopping("failed"))), here.log) by { LoopExhausted(here); }
      ActOne(here, Tick);
      ActAllThen(here, [Tick], last);
      ActAllThen(start, trace, [Tick] + last);
      trace := trace + ([Tick] + last);
    }

    /** One iteration: gate, model call, and whatever the response asks for. */
    method Iterate(messages: seq<Message>, attempt: int, left: nat) returns (next: Option<seq<Message>>, ghost trace: seq<Event>)
      requires left > 0
      modifies this
      ensures Own(trace, run)
      ensures next.Some? ==>
                ActAll(old(At(LoopTop(messages, attempt, left))), trace) == At(LoopTop(next.value, 1, left - 1))
      ensures next.None? ==> ActAll(old(At(LoopTop(messages, attempt, left))), trace) == Gone()
    {
      hide Act, ActAll, GateGoalRun, StartStep, AfterReply;
      ghost var start := At(LoopTop(messages, attempt, left));
      ghost var gated := Act(start, Other(ReadGate(run), 0));
      var (db', gate) := GateGoalRun(db, run);
      db := db';
      assert gated == At(LoopTop(messages, attempt, left)) by { GateRead(start); }
      ghost var called := Act(gated, Tick);
      CallTick(gated, messages, attempt, left);
      ActTwo(start, Other(ReadGate(run), 0), Tick);
      trace := [Other(ReadGate(run), 0), Tick];
      if gate.Err? || gate.value.GateNeedsReview? {
        GateShutTwice(start.db, run);
        return None, trace;
      }
      var (db'', started) := StartStep(db, run, LlmCall(messages), attempt);
      db := db'';
      if started.Err? {
        return None, trace;
      }
      assert called == At(Calling(messages, started.value, left - 1));
      ghost var more;
      next, more := Converse(messages, started.value, left - 1);
      ActAllThen(start, trace, more);
      trace := trace + more;
    }

    /** The model answers, or fails; its tools are run and their results pushed. */
    method Converse(messages: seq<Message>, n: int, left: nat) returns (next: Option<seq<Message>>, ghost trace: seq<Event>)
      modifies this
      ensures Own(trace, run)
      ensures next.Some? ==> ActAll(old(At(Calling(messages, n, left))), trace) == At(LoopTop(next.value, 1, left))
      ensures next.None? ==> ActAll(old(At(Calling(messages, n, left))), trace) == Gone()
    {
      hide ActAll, CompleteStep, FailStep, TickTools, SetRunStatus;
      ghost var start := At(Calling(messages, n, left));
      if answers == [] {
        trace := [Crash];
        ActOne(start, Crash);
        return None, trace;
      }
      var answer := answers[0];
      answers := answers[1..];
      if answer.Refused? {
        db := FailStep(db, run, n, answer.error);
        assert Act(start, ProviderError(answer.error)) == At(Stopping("failed"));
        ghost var last := Stop("failed");
        ActOne(start, ProviderError(answer.error));
        ActAllThen(start, [ProviderError(answer.error)], last);
        trace := [ProviderError(answer.error)] + last;
        return None, trace;
      }
      var response := answer.response;
      db := CompleteStep(db, run, n, Reply(response));
      ghost var replied := Act(start, ProviderReply(response));
      ActOne(start, ProviderReply(response));
      trace := [ProviderReply(response)];
      var messages' := messages + [Assistant(response.content)];
      if response.stopReason == "tool_use" && ToolUses(response.content) != [] {
        var uses := ToolUses(response.content);
        var turn := Turn(messages', uses, [], None, left);
        assert replied == At(Tools(turn));
        var results, more := RunTools(messages', uses, left);
        ActAllThen(start, trace, more);
        trace := trace + more;
        if results.None? {
          return None, trace;
        }
        ghost var full := Turn(messages', uses, results.value, None, left);
        ghost var here := At(Tools(full));
        assert Act(here, Tick) == At(LoopTop(messages' + [ToolResults(results.value)], 1, left)) by { LiveTurnEnds(here, full); }
        ActOne(here, Tick);
        ActAllThen(start, trace, [Tick]);
        trace := trace + [Tick];
        next := Some(messages' + [ToolResults(results.value)]);
      } else if response.stopReason == "pause_turn" {
        next := Some(messages');
      } else {
        ghost var status := if response.stopReason == "end_turn" then "completed" else "failed";
        assert replied == At(Stopping(status));
        ghost var last;
        if response.stopReason == "end_turn" {
          last := Stop("completed");
        } else {
          last := Stop("failed");
        }
        ActAllThen(start, trace, last);
        trace := trace + last;
        next := None;
      }
    }

    /** The results a resume takes from the journal or obtains by running interrupted tools again. */
    method ResumeTools(messages: seq<Message>, uses: seq<Block>, rows: seq<StepRow>) returns (r: Option<seq<ToolResult>>, ghost trace: seq<Event>)
      requires forall i :: 0 <= i < |uses| ==> uses[i].ToolUse?
      modifies this
      ensures Own(trace, run)
      ensures r.Some? ==> |r.value| == |uses|
                          && ActAll(old(At(Tools(Turn(messages, uses, [], Some(rows), 0)))), trace)
                             == At(Tools(Turn(messages, uses, r.value, Some(rows), 0)))
      ensures r.None? ==> ActAll(old(At(Tools(Turn(messages, uses, [], Some(rows), 0)))), trace) == Gone()
    {
      hide Act, ActAll, RejectNext, StartTool, ReplayAllowed, CompletedRows, MaxAttempt;
      ghost var start := At(Tools(Turn(messages, uses, [], Some(rows), 0)));
      var results: seq<ToolResult> := [];
      trace := [];
      assert ActAll(start, trace) == start by { ActNone(start); }
      while |results| < |uses|
        invariant |results| <= |uses| && Own(trace, run)
        invariant ActAll(start, trace) == At(Tools(Turn(messages, uses, results, Some(rows), 0)))
      {
        var turn := Turn(messages, uses, results, Some(rows), 0);
        var use := uses[|results|];
        ghost var here := At(Tools(turn));
        var current := ContractOf(cfg, use.name);
        var done := CompletedRows(rows, use.id);
        var reusable := ToolReplayMatches(done, run, use.name, use.id, use.input, current);
        var repeatable := ToolReplayMatches(rows, run, use.name, use.id, use.input, current);
        ResumedTool(here, turn);
        if |done| == 1 && reusable {
          ActOne(here, Tick);
          ActAllThen(start, trace, [Tick]);
          trace := trace + [Tick];
          results := results + [ToolResult(use.id, ContentOf(done[0]), false)];
        } else if done == [] && repeatable {
          var step, more := ExecuteToolStep(turn, MaxAttempt(rows, use.id) + 1);
          ActAllThen(start, trace, more);
          trace := trace + more;
          match step {
            case Replied(content, isError) =>
              results := results + [ToolResult(use.id, content, isError)];
            case Review =>
              ghost var last := Stop("needs_review");
              ActAllThen(start, trace, last);
              trace := trace + last;
              return None, trace;
            case Died =>
              return None, trace;
          }
        } else {
          ActOne(here, Tick);
          ghost var last := Stop("needs_review");
          ActAllThen(here, [Tick], last);
          ActAllThen(start, trace, [Tick] + last);
          trace := trace + ([Tick] + last);
          return None, trace;
        }
      }
      r := Some(results);
    }

    /**
     * A resume whose gate and status checks have passed: rebuild the conversation
     * from the rows, run what has to run, and enter the loop.
     */
    method ResumeRun(rows: seq<StepRow>) returns (ghost trace: seq<Event>)
      requires run in db.runs && rows == RowsOf(db.steps, run)
      modifies this
      ensures Own(trace, run)
      ensures ActAll(old(At(ResumePc(rows, db.runs[run].input))), trace) == Gone()
    {
      hide Act, ActAll, RowsOf, SetRunStatus, ToolUses;
      ghost var start := At(ResumePc(rows, db.runs[run].input));
      var last := LastLlm(rows);
      if last.None? {
        trace := Restart([UserPrompt(db.runs[run].input)], 1);
      } else if last.value.status != Completed {
        trace := Restart(last.value.request.messages, last.value.attempt + 1);
      } else {
        var response := ReplyOf(last.value);
        var messages := last.value.request.messages + [Assistant(response.content)];
        if response.stopReason == "end_turn" {
          trace := Stop("completed");
        } else if response.stopReason == "pause_turn" {
          trace := Restart(messages, 1);
        } else if response.stopReason != "tool_use" {
          trace := Stop("failed");
        } else {
          var uses := ToolUses(response.content);
          if uses == [] {
            trace := Stop("failed");
          } else {
            assert start == At(Tools(Turn(messages, uses, [], Some(rows), 0)));
            var results;
            results, trace := ResumeTools(messages, uses, rows);
            if results.Some? {
              ghost var full := Turn(messages, uses, results.value, Some(rows), 0);
              ghost var here := At(Tools(full));
              EndOfTurn(here, full);
              ActOne(here, Tick);
              ghost var more := Restart(messages + [ToolResults(results.value)], 1);
              ActAllThen(here, [Tick], more);
              ActAllThen(start, trace, [Tick] + more);
              trace := trace + ([Tick] + more);
            }
          }
        }
      }
    }

    /** Marks the run as running again, unless its goal has moved, and enters the loop. */
    method Restart(messages: seq<Message>, attempt: int) returns (ghost trace: seq<Event>)
      modifies this
      ensures Own(trace, run)
      ensures ActAll(old(At(Restarting(messages, attempt))), trace) == Gone()
    {
      hide SetRunStatus, ActAll;
      ghost var start := At(Restarting(messages, attempt));
      var (db', r) := SetRunStatus(db, run, "running");
      db := db';
      ActOne(start, Tick);
      trace := [Tick];
      if r.Ok? {
        assert Act(start, Tick) == At(LoopTop(messages, attempt, MAX_LOOP_STEPS));
        ghost var more := AgentLoop(messages, attempt);
        ActAllThen(start, trace, more);
        trace := trace + more;
      }
    }
  }

  // ------------------------------------------------- single steps of the model

  lemma ActNone(s: AgentState)
    ensures ActAll(s, []) == s
  {
  }

  lemma LiveTool(s: AgentState, turn: Turn)
    requires s.proc.Some? && s.proc.value.pc == Tools(turn) && turn.snapshot.None?
    requires TurnShape(turn) && |turn.results| < |turn.uses|
    ensures Act(s, Tick) == StartTool(s, turn, 1)
    ensures forall error :: Private(turn.uses[|turn.results|].name) ==>
              RejectNext(s, error) == Goto(s, s.db, Tools(Answer(turn, "Error: " + error, true)))
  {
    hide StartTool, ReplayAllowed, CompletedRows;
  }

  lemma LiveTurnEnds(s: AgentState, turn: Turn)
    requires s.proc.Some? && s.proc.value.pc == Tools(turn) && turn.snapshot.None?
    requires TurnShape(turn) && |turn.results| == |turn.uses|
    ensures Act(s, Tick) == Goto(s, s.db, LoopTop(turn.messages + [ToolResults(turn.results)], 1, turn.left))
  {
    hide StartTool;
  }

  lemma ResumedTool(s: AgentState, turn: Turn)
    requires s.proc.Some? && s.proc.value.pc == Tools(turn) && turn.snapshot.Some?
    requires TurnShape(turn) && |turn.results| < |turn.uses|
    ensures var rows := turn.snapshot.value;
            var use := turn.uses[|turn.results|];
            var current := ContractOf(s.proc.value.cfg, use.name);
            var done := CompletedRows(rows, use.id);
            var reuse := |done| == 1 && ReplayAllowed(done, s.run, use.name, use.id, use.input, current);
            var repeat := done == [] && ReplayAllowed(rows, s.run, use.name, use.id, use.input, current);
            && (reuse ==> Act(s, Tick) == Goto(s, s.db, Tools(Answer(turn, ContentOf(done[0]), false))))
            && (repeat ==> Act(s, Tick) == StartTool(s, turn, MaxAttempt(rows, use.id) + 1))
            && (!reuse && !repeat ==> Act(s, Tick) == Goto(s, s.db, Stopping("needs_review")))
            && (repeat ==> forall error :: Private(use.name) ==>
                  RejectNext(s, error) == Goto(s, s.db, Tools(Answer(turn, "Error: " + error, true))))
  {
    hide StartTool, ReplayAllowed, CompletedRows, MaxAttempt;
  }

  lemma LoopExhausted(s: AgentState)
    requires s.proc.Some? && s.proc.value.pc.LoopTop? && s.proc.value.pc.left == 0
    ensures Act(s, Tick) == Goto(s, s.db, Stopping("failed"))
  {
  }

  lemma GateRead(s: AgentState)
    ensures Act(s, Other(ReadGate(s.run), 0)) == s.(db := GateGoalRun(s.db, s.run).0)
  {
    hide GateGoalRun;
  }

  lemma CallTick(s: AgentState, messages: seq<Message>, attempt: int, left: nat)
    requires s.proc.Some? && s.proc.value.pc == LoopTop(messages, attempt, left) && left > 0
    ensures var (db, r) := StartStep(s.db, s.run, LlmCall(messages), attempt);
            Act(s, Tick) == if r.Ok? then Goto(s, db, Calling(messages, r.value, left - 1)) else Exit(s, db)
  {
    hide StartStep;
  }

  /** A gate that shut once is found shut again, with nothing more to write. */
  lemma GateShutTwice(db: Db, run: string)
    requires !GateOpen(db, run)
    ensures var db' := GateGoalRun(db, run).0;
            forall request, attempt :: StartStep(db', run, request, attempt) == (db', Err(GateError(db', run)))
  {
    hide BindingIsCurrent;
    var db' := GateGoalRun(db, run).0;
    if run in db.runs {
      assert db'.runs[run].status == "needs_review";
      assert GateGoalRun(db', run).0.runs == db'.runs;
    }
  }
}
