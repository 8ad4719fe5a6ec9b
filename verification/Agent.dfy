// The durable agent: one run, driven by at most one process at a time, that may
// crash between any two journal transactions and be resumed under another
// configuration while other processes change goals and other runs.
module Agent {
  import opened Basics
  import opened Json
  import opened StepTypes
  import opened Runs

  const MAX_LOOP_STEPS := 50
  const I64_MAX := 0x7FFF_FFFF_FFFF_FFFF

  /** The resume contract each declared tool has under the current configuration. */
  datatype Config = Config(contracts: map<string, Contract>)

  function ContractOf(cfg: Config, name: string): Option<Contract> {
    if name in cfg.contracts then Some(cfg.contracts[name]) else None
  }

  /** Tools the runner answers from the journal itself. */
  predicate Private(name: string) {
    name == "decision_audit_append" || name == "decision_audit_read"
  }

  function ToolKey(run: string, id: string): Option<string> {
    if id == "" then None else Some("beater:" + run + ":tool:" + id)
  }

  function ToolUses(content: seq<Block>): (r: seq<Block>)
    ensures forall i :: 0 <= i < |r| ==> r[i].ToolUse?
  {
    if content == [] then []
    else if content[0].ToolUse? then [content[0]] + ToolUses(content[1..])
    else ToolUses(content[1..])
  }

  // ----------------------------------------------------------- replay contract

  predicate ToolRow(row: StepRow, id: string) {
    row.request.ToolCall? && row.request.toolUseId == id
  }

  /** One earlier row for this id allows the call to be repeated under this contract. */
  predicate RowAllowsReplay(row: StepRow, run: string, name: string, id: string, input: Value, current: Contract)
    requires ToolRow(row, id)
  {
    row.request.name == name
    && Same(row.request.input, input)
    && row.request.key == ToolKey(run, id)
    && 0 < row.attempt < I64_MAX
    && row.request.contract == Some(current)
  }

  predicate UsableContract(current: Option<Contract>, name: string) {
    current.Some? && ValidContract(current.value) && current.value.idempotent && current.value.name == name
  }

  /** Every earlier row for the id allows the replay, and there is at least one. */
  predicate ReplayAllowed(rows: seq<StepRow>, run: string, name: string, id: string, input: Value, current: Option<Contract>) {
    UsableContract(current, name) && id != ""
    && (exists i :: 0 <= i < |rows| && ToolRow(rows[i], id))
    && (forall i :: 0 <= i < |rows| && ToolRow(rows[i], id) ==>
          RowAllowsReplay(rows[i], run, name, id, input, current.value))
  }

  function CompletedRows(rows: seq<StepRow>, id: string): (r: seq<StepRow>)
    ensures forall i :: 0 <= i < |r| ==> r[i] in rows && ToolRow(r[i], id) && r[i].status == Completed
    ensures forall i :: 0 <= i < |rows| && ToolRow(rows[i], id) && rows[i].status == Completed ==> rows[i] in r
  {
    if rows == [] then []
    else
      var rest := CompletedRows(rows[1..], id);
      assert forall i :: 1 <= i < |rows| ==> rows[i] == rows[1..][i - 1];
      if ToolRow(rows[0], id) && rows[0].status == Completed then [rows[0]] + rest else rest
  }

  function MaxAttempt(rows: seq<StepRow>, id: string): (r: int)
    ensures r >= 0
    ensures forall i :: 0 <= i < |rows| && ToolRow(rows[i], id) ==> rows[i].attempt <= r
    ensures r == 0 || exists i :: 0 <= i < |rows| && ToolRow(rows[i], id) && rows[i].attempt == r
  {
    if rows == [] then 0
    else
      var rest := MaxAttempt(rows[1..], id);
      assert forall i :: 1 <= i < |rows| ==> rows[i] == rows[1..][i - 1];
      if ToolRow(rows[0], id) && rows[0].attempt > rest then rows[0].attempt
      else
        assert rest == 0 || exists i :: 0 <= i < |rows| && ToolRow(rows[i], id) && rows[i].attempt == rest by {
          if rest != 0 {
            var i :| 0 <= i < |rows| - 1 && ToolRow(rows[1..][i], id) && rows[1..][i].attempt == rest;
            assert ToolRow(rows[i + 1], id);
          }
        }
        rest
  }

  function ContentOf(row: StepRow): string {
    match row.result
    case Some(Content(content)) => content
    case _ => ""
  }

  // ------------------------------------------------------------ process states

  /** One assistant turn whose tools are being answered; a resumed turn keeps the rows it read. */
  datatype Turn = Turn(messages: seq<Message>, uses: seq<Block>, results: seq<ToolResult>,
                       snapshot: Option<seq<StepRow>>, left: nat)

  datatype Outcome = Success(content: string) | Errored(error: string) | Ambiguous(error: string)

  datatype Pc =
    | LoopTop(messages: seq<Message>, attempt: int, left: nat)
    | Calling(messages: seq<Message>, n: int, left: nat)
    | Tools(turn: Turn)
    | Dispatching(turn: Turn, n: int)
    | Settling(turn: Turn, n: int, outcome: Outcome)
    | Restarting(messages: seq<Message>, attempt: int)
    | Stopping(status: string)

  datatype Live = Live(cfg: Config, pc: Pc)

  /** An effect handed to a tool, with the journal row that announced it. */
  datatype Dispatch = Dispatch(n: int, id: string, name: string, input: Value, key: Option<string>)

  /** `proc` is the holder of the run's exclusive lock; a crash releases it. */
  datatype AgentState = AgentState(db: Db, run: string, proc: Option<Live>, log: seq<Dispatch>)

  datatype Event =
    | Other(op: JournalOp, now: nat)
    | Crash
    | Resume(cfg: Config)
    | Tick
    | ProviderReply(response: Response)
    | ProviderError(error: string)
    | RejectPrivate(error: string)
    | Effect(outcome: Outcome)

  function Rows(s: AgentState): seq<StepRow> {
    RowsOf(s.db.steps, s.run)
  }

  function Goto(s: AgentState, db: Db, pc: Pc): AgentState
    requires s.proc.Some?
  {
    s.(db := db, proc := Some(s.proc.value.(pc := pc)))
  }

  function Exit(s: AgentState, db: Db): AgentState {
    s.(db := db, proc := None)
  }

  // ------------------------------------------------------------------- resume

  function LastLlm(rows: seq<StepRow>): (r: Option<StepRow>)
    ensures r.Some? ==> r.value.request.LlmCall? && r.value in rows
  {
    if rows == [] then None
    else
      var last := rows[|rows| - 1];
      if last.request.LlmCall? then Some(last) else LastLlm(rows[..|rows| - 1])
  }

  function ReplyOf(row: StepRow): Response {
    match row.result
    case Some(Reply(response)) => response
    case _ => Response([], "")
  }

  /** What follows a completed model response; `snapshot` distinguishes a resume from the live loop. */
  function AfterReply(messages: seq<Message>, response: Response, snapshot: Option<seq<StepRow>>, left: nat): Pc {
    var messages' := messages + [Assistant(response.content)];
    if response.stopReason == "end_turn" then Stopping("completed")
    else if response.stopReason == "pause_turn" then
      if snapshot.Some? then Restarting(messages', 1) else LoopTop(messages', 1, left)
    else if response.stopReason == "tool_use" && ToolUses(response.content) != [] then
      Tools(Turn(messages', ToolUses(response.content), [], snapshot, left))
    else Stopping("failed")
  }

  function ResumePc(rows: seq<StepRow>, input: string): Pc {
    match LastLlm(rows)
    case None => Restarting([UserPrompt(input)], 1)
    case Some(row) =>
      if row.status != Completed then Restarting(row.request.messages, row.attempt + 1)
      else AfterReply(row.request.messages, ReplyOf(row), Some(rows), 0)
  }

  function StartResume(s: AgentState, cfg: Config): AgentState {
    if s.run !in s.db.runs then s
    else
      var (db, gate) := GateGoalRun(s.db, s.run);
      if gate.Ok? && gate.value.GateNeedsReview? then s.(db := db)
      else if s.db.runs[s.run].status == "completed" then s
      else s.(proc := Some(Live(cfg, ResumePc(Rows(s), s.db.runs[s.run].input))))
  }

  // -------------------------------------------------------------------- steps

  /** The next tool of a turn is announced in the journal before it runs. */
  function StartTool(s: AgentState, turn: Turn, attempt: int): AgentState
    requires s.proc.Some? && |turn.results| < |turn.uses| && turn.uses[|turn.results|].ToolUse?
  {
    var use := turn.uses[|turn.results|];
    var contract := ContractOf(s.proc.value.cfg, use.name);
    if contract.Some? && !ValidContract(contract.value) then
      Goto(s, s.db, Tools(Answer(turn, "Error: invalid tool resume contract", true)))
    else
      var (db, r) := StartStep(s.db, s.run, ToolCall(use.name, use.input, use.id, ToolKey(s.run, use.id), contract), attempt);
      if r.Ok? then Goto(s, db, Dispatching(turn, r.value)) else Goto(s, db, Stopping("needs_review"))
  }

  function Answer(turn: Turn, content: string, isError: bool): Turn
    requires |turn.results| < |turn.uses| && turn.uses[|turn.results|].ToolUse?
  {
    turn.(results := turn.results + [ToolResult(turn.uses[|turn.results|].id, content, isError)])
  }

  predicate TurnShape(turn: Turn) {
    |turn.results| <= |turn.uses| && forall i :: 0 <= i < |turn.uses| ==> turn.uses[i].ToolUse?
  }

  function TickTools(s: AgentState, turn: Turn): AgentState
    requires s.proc.Some?
  {
    if !TurnShape(turn) then s
    else if |turn.results| == |turn.uses| then
      var messages := turn.messages + [ToolResults(turn.results)];
      Goto(s, s.db, if turn.snapshot.Some? then Restarting(messages, 1) else LoopTop(messages, 1, turn.left))
    else
      match turn.snapshot
      case None => StartTool(s, turn, 1)
      case Some(rows) =>
        var use := turn.uses[|turn.results|];
        var current := ContractOf(s.proc.value.cfg, use.name);
        var done := CompletedRows(rows, use.id);
        if |done| == 1 && ReplayAllowed(done, s.run, use.name, use.id, use.input, current) then
          Goto(s, s.db, Tools(Answer(turn, ContentOf(done[0]), false)))
        else if done == [] && ReplayAllowed(rows, s.run, use.name, use.id, use.input, current) then
          StartTool(s, turn, MaxAttempt(rows, use.id) + 1)
        else Goto(s, s.db, Stopping("needs_review"))
  }

  function Settle(s: AgentState, turn: Turn, n: int, outcome: Outcome): AgentState
    requires s.proc.Some?
  {
    if !TurnShape(turn) || |turn.results| == |turn.uses| then s
    else
      match outcome
      case Success(content) =>
        Goto(s, CompleteStep(s.db, s.run, n, Content(content)), Tools(Answer(turn, content, false)))
      case Errored(error) => Goto(s, FailStep(s.db, s.run, n, error), Tools(Answer(turn, "Error: " + error, true)))
      case Ambiguous(error) => Goto(s, FailStep(s.db, s.run, n, error), Stopping("needs_review"))
  }

  function TickProcess(s: AgentState): AgentState
    requires s.proc.Some?
  {
    match s.proc.value.pc
    case LoopTop(messages, attempt, left) =>
      if left == 0 then Goto(s, s.db, Stopping("failed"))
      else
        var (db, r) := StartStep(s.db, s.run, LlmCall(messages), attempt);
        if r.Ok? then Goto(s, db, Calling(messages, r.value, left - 1)) else Exit(s, db)
    case Tools(turn) => TickTools(s, turn)
    case Settling(turn, n, outcome) => Settle(s, turn, n, outcome)
    case Restarting(messages, attempt) =>
      var (db, r) := SetRunStatus(s.db, s.run, "running");
      if r.Ok? then Goto(s, db, LoopTop(messages, attempt, MAX_LOOP_STEPS)) else Exit(s, db)
    case Stopping(status) => Exit(s, SetRunStatus(s.db, s.run, status).0)
    case _ => s
  }

  /** The effect happens now; its outcome is journaled by a later step, if no crash intervenes. */
  function DispatchEffect(s: AgentState, turn: Turn, n: int, outcome: Outcome): AgentState
    requires s.proc.Some?
  {
    if !TurnShape(turn) || |turn.results| == |turn.uses| then s
    else
      var use := turn.uses[|turn.results|];
      Goto(s, s.db, Settling(turn, n, outcome)).(
        log := s.log + [Dispatch(n, use.id, use.name, use.input, ToolKey(s.run, use.id))])
  }

  /** One step of the system; an event that is not enabled changes nothing. */
  function Act(s: AgentState, e: Event): AgentState {
    match e
    case Other(op, now) => s.(db := Step(s.db, op, now))
    case Crash => s.(proc := None)
    case Resume(cfg) => if s.proc.None? then StartResume(s, cfg) else s
    case Tick => if s.proc.Some? then TickProcess(s) else s
    case ProviderReply(response) =>
      if s.proc.Some? && s.proc.value.pc.Calling? then
        var pc := s.proc.value.pc;
        Goto(s, CompleteStep(s.db, s.run, pc.n, Reply(response)), AfterReply(pc.messages, response, None, pc.left))
      else s
    case ProviderError(error) =>
      if s.proc.Some? && s.proc.value.pc.Calling? then
        Goto(s, FailStep(s.db, s.run, s.proc.value.pc.n, error), Stopping("failed"))
      else s
    case RejectPrivate(error) => RejectNext(s, error)
    case Effect(outcome) =>
      if s.proc.Some? && s.proc.value.pc.Dispatching? then
        DispatchEffect(s, s.proc.value.pc.turn, s.proc.value.pc.n, outcome)
      else s
  }

  /** A private tool whose input or gate check fails is answered without a journal row. */
  function RejectNext(s: AgentState, error: string): AgentState {
    if s.proc.Some? && s.proc.value.pc.Tools? && TurnShape(s.proc.value.pc.turn)
       && |s.proc.value.pc.turn.results| < |s.proc.value.pc.turn.uses| then
      var turn := s.proc.value.pc.turn;
      var use := turn.uses[|turn.results|];
      var rejectable := match turn.snapshot
                        case None => true
                        case Some(rows) =>
                          CompletedRows(rows, use.id) == []
                          && ReplayAllowed(rows, s.run, use.name, use.id, use.input, ContractOf(s.proc.value.cfg, use.name));
      if Private(use.name) && rejectable then Goto(s, s.db, Tools(Answer(turn, "Error: " + error, true))) else s
    else s
  }

  // ---------------------------------------------------------------- admissible events

  /** Other processes do not hold this run's lock, so they leave its rows alone. */
  predicate Foreign(op: JournalOp, run: string) {
    match op
    case GoalTx(_) => true
    case NewRun(id, _, _) => id != run
    case NewBoundRun(_, _, _, id, _, _) => id != run
    case ReadGate(_) => true
    case SetStatus(target, _) => target != run
    case Start(target, _, _) => target != run
    case Complete(target, _, _) => target != run
    case Fail(target, _, _) => target != run
  }

  /** The provider never reuses a tool-use id within a run. */
  predicate FreshIds(rows: seq<StepRow>, uses: seq<Block>)
    requires forall i :: 0 <= i < |uses| ==> uses[i].ToolUse?
  {
    (forall i, j :: 0 <= i < j < |uses| ==> uses[i].id != uses[j].id)
    && (forall i, k :: 0 <= i < |uses| && 0 <= k < |rows| ==> !ToolRow(rows[k], uses[i].id))
  }

  predicate Admissible(s: AgentState, e: Event) {
    match e
    case Other(op, _) => Foreign(op, s.run)
    case ProviderReply(response) => FreshIds(Rows(s), ToolUses(response.content))
    case _ => true
  }

  predicate AdmissibleAll(s: AgentState, events: seq<Event>)
    decreases |events|
  {
    events == [] || (Admissible(s, events[0]) && AdmissibleAll(Act(s, events[0]), events[1..]))
  }

  function ActAll(s: AgentState, events: seq<Event>): AgentState
    decreases |events|
  {
    if events == [] then s else ActAll(Act(s, events[0]), events[1..])
  }

  /** A freshly created run: nobody works on it yet, or its creator is about to start the loop. */
  predicate Initial(s: AgentState) {
    s.run in s.db.runs && Rows(s) == [] && s.log == []
    && (s.proc.None? || s.proc.value.pc == LoopTop([UserPrompt(s.db.runs[s.run].input)], 1, MAX_LOOP_STEPS))
  }
}
