// What every step of the agent keeps, crashes and resumes included.
module AgentInvariants {
  import opened Basics
  import opened Json
  import opened StepTypes
  import opened Runs
  import opened Agent

  // ------------------------------------------------------------ conversation

  /** The results answer exactly the tool uses, in order. */
  predicate Answers(results: seq<ToolResult>, uses: seq<Block>)
    requires forall i :: 0 <= i < |uses| ==> uses[i].ToolUse?
  {
    |results| <= |uses| && forall k :: 0 <= k < |results| ==> results[k].toolUseId == uses[k].id
  }

  /** Some row for this tool use has completed. */
  predicate Done(rows: seq<StepRow>, id: string) {
    exists i :: 0 <= i < |rows| && ToolRow(rows[i], id) && rows[i].status == Completed
  }

  /** Every tool without a completed row is answered as an error. */
  predicate ErrorsAgree(rows: seq<StepRow>, uses: seq<Block>, results: seq<ToolResult>)
    requires forall i :: 0 <= i < |uses| ==> uses[i].ToolUse?
    requires |results| <= |uses|
  {
    forall k :: 0 <= k < |results| && !Done(rows, uses[k].id) ==> results[k].isError && "Error: " <= results[k].content
  }

  /** Whatever the journal holds as a completed result is what the conversation says; everything else failed. */
  predicate ResultsAgree(rows: seq<StepRow>, uses: seq<Block>, results: seq<ToolResult>)
    requires forall i :: 0 <= i < |uses| ==> uses[i].ToolUse?
    requires |results| <= |uses|
  {
    (forall k, i :: 0 <= k < |results| && 0 <= i < |rows| && ToolRow(rows[i], uses[k].id) && rows[i].status == Completed ==>
       results[k] == ToolResult(uses[k].id, ContentOf(rows[i]), false))
    && ErrorsAgree(rows, uses, results)
  }

  /** A request that continues after a completed model response. */
  predicate ContinuesReply(rows: seq<StepRow>, prior: StepRow, messages: seq<Message>)
    requires prior.request.LlmCall?
  {
    var response := ReplyOf(prior);
    var answered := prior.request.messages + [Assistant(response.content)];
    var uses := ToolUses(response.content);
    if response.stopReason == "pause_turn" then messages == answered
    else
      response.stopReason == "tool_use" && uses != [] && messages != [] &&
      var last := messages[|messages| - 1];
      last.ToolResults? && messages == answered + [last]
      && |last.results| == |uses| && Answers(last.results, uses) && ResultsAgree(rows, uses, last.results)
  }

  /** The next model request these rows call for, and its attempt number. */
  predicate Follows(rows: seq<StepRow>, input: string, messages: seq<Message>, attempt: int) {
    match LastLlm(rows)
    case None => messages == [UserPrompt(input)] && attempt == 1
    case Some(prior) =>
      if prior.status != Completed then messages == prior.request.messages && attempt == prior.attempt + 1
      else attempt == 1 && ContinuesReply(rows, prior, messages)
  }

  predicate ChainOk(rows: seq<StepRow>, input: string) {
    forall i :: 0 <= i < |rows| && rows[i].request.LlmCall? ==>
      Follows(rows[..i], input, rows[i].request.messages, rows[i].attempt)
  }

  // ------------------------------------------------------------- tool rows

  /** An earlier row that let a later row repeat the same call. */
  predicate Repeatable(a: StepRow, b: StepRow)
    requires a.request.ToolCall? && b.request.ToolCall?
  {
    a.status != Completed
    && a.request.contract.Some? && b.request.contract == a.request.contract
    && ValidContract(a.request.contract.value) && a.request.contract.value.idempotent
    && a.request.name == b.request.name == a.request.contract.value.name
    && Same(a.request.input, b.request.input)
    && a.request.key == b.request.key
    && a.attempt < b.attempt
  }

  predicate PairsOk(rows: seq<StepRow>) {
    forall i, j :: 0 <= i < j < |rows| && rows[j].request.ToolCall? && ToolRow(rows[i], rows[j].request.toolUseId) ==>
      Repeatable(rows[i], rows[j])
  }

  predicate ToolRowsOk(rows: seq<StepRow>, run: string) {
    forall i :: 0 <= i < |rows| && rows[i].request.ToolCall? ==>
      1 <= rows[i].attempt <= I64_MAX && rows[i].request.key == ToolKey(run, rows[i].request.toolUseId)
  }

  predicate Announced(row: StepRow, d: Dispatch) {
    row.request.ToolCall? && row.request.toolUseId == d.id && row.request.name == d.name
    && row.request.input == d.input && row.request.key == d.key
  }

  /** Every effect has its own row, announced before it and never shared. */
  predicate LogOk(rows: seq<StepRow>, log: seq<Dispatch>) {
    (forall i :: 0 <= i < |log| ==> 1 <= log[i].n <= |rows| && Announced(rows[log[i].n - 1], log[i]))
    && forall i, j :: 0 <= i < j < |log| ==> log[i].n < log[j].n
  }

  // --------------------------------------------------------------- processes

  function Base(turn: Turn): seq<StepRow> {
    match turn.snapshot
    case None => []
    case Some(rows) => rows
  }

  predicate DistinctIds(uses: seq<Block>)
    requires forall i :: 0 <= i < |uses| ==> uses[i].ToolUse?
  {
    forall i, j :: 0 <= i < j < |uses| ==> uses[i].id != uses[j].id
  }

  /** Tools not yet answered have no rows beyond those read when the turn began. */
  predicate Untouched(rows: seq<StepRow>, turn: Turn)
    requires TurnShape(turn)
  {
    Base(turn) <= rows
    && forall k, i :: |turn.results| <= k < |turn.uses| && |Base(turn)| <= i < |rows| ==> !ToolRow(rows[i], turn.uses[k].id)
  }

  /** For a live turn the ids are fresh; a resumed turn starts from everything it read. */
  predicate TurnOk(rows: seq<StepRow>, turn: Turn) {
    TurnShape(turn) && DistinctIds(turn.uses) && Untouched(rows, turn)
    && Answers(turn.results, turn.uses) && ResultsAgree(rows, turn.uses, turn.results)
    && var prior := LastLlm(rows);
       prior.Some? && prior.value.status == Completed && turn.uses != []
       && ReplyOf(prior.value).stopReason == "tool_use"
       && turn.uses == ToolUses(ReplyOf(prior.value).content)
       && turn.messages == prior.value.request.messages + [Assistant(ReplyOf(prior.value).content)]
  }

  /** The current tool of a turn has been announced by the last row, which is still open. */
  predicate Pending(rows: seq<StepRow>, turn: Turn, n: int) {
    n == |rows| && n >= 1 && TurnOk(rows[..n - 1], turn) && |turn.results| < |turn.uses|
    && var use := turn.uses[|turn.results|];
       rows[n - 1].status == Started && ToolRow(rows[n - 1], use.id)
       && rows[n - 1].request.name == use.name && rows[n - 1].request.input == use.input
  }

  /** The newest model response is complete and ended its turn. */
  predicate EndsTurn(rows: seq<StepRow>) {
    match LastLlm(rows)
    case None => false
    case Some(row) => row.status == Completed && ReplyOf(row).stopReason == "end_turn"
  }

  predicate PcOk(rows: seq<StepRow>, input: string, log: seq<Dispatch>, pc: Pc) {
    match pc
    case LoopTop(messages, attempt, _) => Follows(rows, input, messages, attempt)
    case Restarting(messages, attempt) => Follows(rows, input, messages, attempt)
    case Calling(messages, n, _) =>
      n == |rows| && n >= 1 && rows[n - 1].status == Started && rows[n - 1].request == LlmCall(messages)
    case Tools(turn) => TurnOk(rows, turn)
    case Dispatching(turn, n) => Pending(rows, turn, n) && forall i :: 0 <= i < |log| ==> log[i].n < n
    case Settling(turn, n, _) => Pending(rows, turn, n)
    case Stopping(status) => status == "completed" ==> EndsTurn(rows)
  }

  /** The part of the state that depends only on the rows. */
  ghost predicate RowsOk(rows: seq<StepRow>, run: string, input: string, log: seq<Dispatch>) {
    GapFree(rows) && ChainOk(rows, input) && PairsOk(rows) && ToolRowsOk(rows, run) && LogOk(rows, log)
    && LlmIdsDistinct(rows)
  }

  /** Every journaled response respects the provider's promise of distinct ids. */
  predicate LlmIdsDistinct(rows: seq<StepRow>) {
    forall i :: 0 <= i < |rows| && rows[i].request.LlmCall? && rows[i].status == Completed ==>
      DistinctIds(ToolUses(ReplyOf(rows[i]).content))
  }

  ghost predicate AgentOk(s: AgentState) {
    s.run in s.db.runs
    && RowsOk(Rows(s), s.run, s.db.runs[s.run].input, s.log)
    && (s.proc.Some? ==> PcOk(Rows(s), s.db.runs[s.run].input, s.log, s.proc.value.pc))
  }

  // ------------------------------------------------------------ row lemmas

  lemma LastLlmAppend(rows: seq<StepRow>, row: StepRow)
    ensures LastLlm(rows + [row]) == if row.request.LlmCall? then Some(row) else LastLlm(rows)
  {
    assert (rows + [row])[..|rows|] == rows;
  }

  /** Appending a model request that the rows call for. */
  lemma AppendLlm(rows: seq<StepRow>, run: string, input: string, log: seq<Dispatch>, row: StepRow)
    requires RowsOk(rows, run, input, log)
    requires row.request.LlmCall? && row.status == Started && row.seqNo == |rows| + 1
    requires Follows(rows, input, row.request.messages, row.attempt)
    ensures RowsOk(rows + [row], run, input, log)
  {
    hide Follows, Repeatable, DistinctIds;
    var rows' := rows + [row];
    forall i | 0 <= i < |rows'| && rows'[i].request.LlmCall?
      ensures Follows(rows'[..i], input, rows'[i].request.messages, rows'[i].attempt)
    {
      assert rows'[..i] == rows[..i];
      if i == |rows| {
        assert rows[..i] == rows;
      }
    }
  }

  /** Appending a tool row that every earlier row for its id lets repeat. */
  lemma AppendTool(rows: seq<StepRow>, run: string, input: string, log: seq<Dispatch>, row: StepRow)
    requires RowsOk(rows, run, input, log)
    requires row.request.ToolCall? && row.seqNo == |rows| + 1
    requires 1 <= row.attempt <= I64_MAX && row.request.key == ToolKey(run, row.request.toolUseId)
    requires forall i :: 0 <= i < |rows| && ToolRow(rows[i], row.request.toolUseId) ==> Repeatable(rows[i], row)
    ensures RowsOk(rows + [row], run, input, log)
  {
    hide Follows, Repeatable, DistinctIds;
    var rows' := rows + [row];
    forall i | 0 <= i < |rows'| && rows'[i].request.LlmCall?
      ensures Follows(rows'[..i], input, rows'[i].request.messages, rows'[i].attempt)
    {
      assert rows'[..i] == rows[..i];
    }
  }

  /** Finishing the last row, which no later row builds on. */
  lemma FinishLast(rows: seq<StepRow>, run: string, input: string, log: seq<Dispatch>, status: StepStatus, result: StepResult)
    requires RowsOk(rows, run, input, log) && rows != []
    requires rows[|rows| - 1].request.LlmCall? && status == Completed ==>
               result.Reply? && DistinctIds(ToolUses(result.response.content))
    ensures RowsOk(rows[|rows| - 1 := Finished(rows[|rows| - 1], status, result)], run, input, log)
  {
    hide Follows, DistinctIds;
    var last := |rows| - 1;
    var rows' := rows[last := Finished(rows[last], status, result)];
    forall i | 0 <= i < |rows'| && rows'[i].request.LlmCall?
      ensures Follows(rows'[..i], input, rows'[i].request.messages, rows'[i].attempt)
    {
      assert rows'[..i] == rows[..i];
    }
  }
}
