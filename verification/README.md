# Verified model of a durable agent runtime

This project models the parts of the runtime that have to be right when processes
crash, files are tampered with, or several writers race, and proves properties of
every history of them.

* **Goals** (`GoalTypes`, `GoalJournal`, `GoalInvariants`, `GoalTheorems`, `GoalLedger`): the goal,
  revision, event, replay and milestone tables, and the three transactions that write
  them. Revisions are compare-and-swap; requests are replayable; a revision marks the
  milestones it affects.
* **Runs** (`Runs`, `RunTheorems`, `SizeLimits`): runs bound to one goal revision, the
  gate that fails closed, and the numbered steps of a run.
* **Journal objects** (`Journal`, `DecisionJournal`): the same transactions as methods
  that update fields, proved equal to the specification functions.
* **Agent** (`Agent`, `AgentInvariants`, `AgentSteps`, `AgentTheorems`, `AgentOutcomes`, `AgentProcess`): the
  runner as a state machine over journal rows with a ghost log of effects. Events are model
  replies, tool effects, crashes, resumes under any configuration and transactions of other
  processes. `AgentProcess` holds the runner's own loops and shows that they are runs of
  that machine.
* **Decision audit** (`Json`, `JsonParser`, `CanonicalJson`, `Records`, `GoalRecords`,
  `DecisionTypes`, `DecisionAudit`, `DecisionTheorems`, `DecisionAcceptance`): canonical JSON, the hash chain, its
  strict reader and its writer. The digest is a parameter: any function into 64 lower-case
  hexadecimal characters. Tamper evidence is stated as "equal, or here are two different
  byte strings with the same digest, hashed at these two events".
* **Printers and contracts** (`Printers`, `ResumeContract`): the two canonical printers as
  loops, one with depth, node and byte budgets.
* **Projections** (`ReadProjection`): cursor pages and the milestone summary, over
  arbitrary tables and over reachable ones.
* **Streams** (`Sse`, `Slots`, `MessageStream`, `OpenAiStream`, `ToolNames`): the event decoder, the
  two message assemblers and the tool-name map.
* **Edges of the runtime** (`Router`, `TextEncoder`, `Utf8`): route tables, path matching and
  the hand-written UTF-8 encoder, with a decoder per section 3 of RFC 3629 as its reference.

Two assumptions come from the design and appear as hypotheses. The model provider never
reuses a tool-use id within a run (`Agent.FreshIds`). One process at a time works on a run,
because the run's exclusive lock is held until the process drops it or dies
(`crates/beater-agent/src/ownership.rs`), so foreign transactions leave the run's rows
alone (`Agent.Foreign`); they may still change its goal at any moment.

Where the documentation and the code differ, the model follows the code:

* A comment in `crates/beater-runtime/src/router.rs` says that static segments win over
  parameters at each depth. They win exactly when no differently named parameters above
  that depth decide the other way (`Router.StaticWinsExactly`). For the files
  `[a]/[z].ts` and `[b]/x.ts` they do: `/y/x` goes to the first (`Router.AskTwoFiles`).
* The two stream clients have the same event decoder twice; one model stands for both.
  When a chunk holds an invalid line, the events completed earlier in that chunk are lost
  with it, in the model as in the code.
* A tool of the last response that was never started is parked on resume, since no row for
  it is found.

## Model

| member | source | states |
|---|---|---|
| `GoalTheorems.HistoriesAreLinear` | crates/beater-journal/src/lib.rs:897-934 | In every reachable journal the revisions of every goal are exactly 1..n, each valid, under its own scope and id, with exactly one well-formed event of the same timestamp; the goal row is the last revision; every milestone row is the body of its latest history row and there are at most 128 |
| `GoalTheorems.FreshnessIsSound` | crates/beater-journal/src/lib.rs:1007-1180 | For any history: a milestone not marked `requires_refresh`, whose latest history row is at revision r, saw the same objective, the same playbook and the same value of each parameter it depends on at every revision from r to the current one, and those parameters exist |
| `GoalTheorems.RefreshStaysForever` | crates/beater-journal/src/lib.rs:1060-1074 | Once a milestone needs a refresh, no later history of any operations removes it or clears the mark |
| `GoalTheorems.RefreshIsSticky` | crates/beater-journal/src/lib.rs:1158-1162 | No single transaction removes a milestone or clears its refresh mark, a re-recording included |
| `GoalTheorems.RevisionInvalidatesExactly` | crates/beater-journal/src/lib.rs:1035-1078 | A revision takes each patched member from the patch and every other from the previous body, and marks a milestone exactly when the objective, the playbook or one of its parameter values differs; all other milestones are untouched |
| `GoalTheorems.RecordingChangesOne` | crates/beater-journal/src/lib.rs:1140-1179 | A recording moves the goal by one revision with no other change and rewrites exactly one milestone, which keeps an earlier refresh mark and depends only on parameters the goal has |
| `GoalTheorems.RepeatReturnsOriginal` | crates/beater-journal/src/lib.rs:872-895 | Repeating a committed request after any later history returns the original response and leaves every table as it is |
| `GoalTheorems.ChangedContentConflicts` | crates/beater-journal/src/lib.rs:872-895 | The same replay key with different content is refused, after any later history, and changes nothing |
| `GoalTheorems.ApplyNeverFalls` | crates/beater-journal/src/lib.rs:1029-1050 | A transaction raises the revision of its own goal by exactly one or changes no goal at all |
| `GoalTheorems.OneWriterWins` | crates/beater-journal/src/lib.rs:1029-1034 | Of two requests that name the same expected revision of a goal, once one has changed the goal the other never changes anything, whatever happens in between |
| `GoalTheorems.ApplyKeepsGoals` | crates/beater-journal/src/lib.rs:918-934 | Every transaction keeps the whole goal invariant (linear history, milestone history, freshness, replay receipts), and no uniqueness constraint of the tables can fire |
| `GoalInvariants.CommitKeepsLinear` | crates/beater-journal/src/lib.rs:897-916 | Writing the next revision with its event extends a linear history by exactly one revision |
| `GoalInvariants.InvalidationKeepsFresh` | crates/beater-journal/src/lib.rs:1051-1074 | Marking exactly the affected milestones keeps freshness sound across a revision |
| `GoalInvariants.RecordKeepsFresh` | crates/beater-journal/src/lib.rs:1117-1180 | Recording a milestone bumps the goal revision without changing its inputs, so every fresh milestone stays fresh |
| `GoalLedger.CreateAccepted` | crates/beater-journal/src/lib.rs:918-934 | In every reachable journal a create request with an unused replay key is accepted exactly when it is well formed and the goal does not exist; the goal is then current and no other goal is touched, and a refusal changes nothing |
| `GoalLedger.ReviseAccepted` | crates/beater-journal/src/lib.rs:1007-1078 | A revise request with an unused replay key is accepted exactly when it is well formed and expects the current revision, below the last one; the patched goal is always valid, and a refusal changes nothing |
| `GoalLedger.RecordAccepted` | crates/beater-journal/src/lib.rs:1117-1180 | A recording with an unused replay key is accepted exactly when it is well formed, expects the current revision, depends only on present parameters, and is for a known milestone or one of at most 128 |
| `GoalLedger.ApplyWrites` | crates/beater-journal/src/lib.rs:897-916 | Every transaction that changes anything writes one revision, one event and one history row for each rewritten milestone, each under its name, actor, request, operation and time, and keeps all earlier rows |
| `GoalLedger.OtherRequestsStayNew` | crates/beater-journal/src/lib.rs:872-895 | A committed request uses up exactly the replay key of its scope, goal, actor, operation and request id |
| `GoalLedger.RevisionsNameTheirRequest` | crates/beater-journal/src/lib.rs:897-916 | Over any history, revision r and its only event carry the actor, request id, operation, kind and time of the one request that took the goal from r - 1 to r |
| `Journal.Journal.CreateGoal` | crates/beater-journal/src/lib.rs:918-934 | The transaction commits the whole new table state of the specification, or leaves the tables unchanged with the same error |
| `Journal.Journal.ReviseGoal` | crates/beater-journal/src/lib.rs:1007-1078 | The transaction with its loop over milestones has exactly the specified result and new state, for every order of visiting them |
| `Journal.Journal.Invalidate` | crates/beater-journal/src/lib.rs:1060-1074 | The loop that rewrites milestones one by one ends in exactly the set of affected milestones marked stale, one history row each, and aborts exactly when such a row already exists |
| `Journal.Journal.RecordMilestone` | crates/beater-journal/src/lib.rs:1117-1180 | The transaction has exactly the specified result and new state |
| `Journal.ValidateParameterValue` | crates/beater-journal/src/lib.rs:276-309 | With one node counter shared by the whole recursion, accepts exactly the values that satisfy the per-node rules and have no more nodes than are left, and leaves the exact remainder |
| `Journal.ValidateParameters` | crates/beater-journal/src/lib.rs:234-254 | Accepts exactly the valid parameter sets: per-parameter rules, one budget of 1024 nodes over all of them, and the total size |
| `RunTheorems.StaleForever` | crates/beater-journal/src/lib.rs:584-685 | Once a bound run's goal has moved past its bound revision, no later history makes the binding current, starts a step of the run, changes a recorded request, or newly sets its status to running or completed |
| `RunTheorems.CompletionWasCurrent` | crates/beater-journal/src/lib.rs:666-685 | A bound run that is `completed` in any reachable journal was completed by a transaction in which its binding was current |
| `RunTheorems.GateFailsClosed` | crates/beater-journal/src/lib.rs:623-654 | For arbitrary table contents whose stored goal and binding texts are within the query's 65536 and 4096 bytes, the gate passes a run exactly when it is unbound or bound to the exact current goal revision under its own id; anything else parks it for review and touches nothing else |
| `RunTheorems.MilestoneMakesStale` | crates/beater-journal/src/lib.rs:1117-1180 | A milestone recorded against the goal of a current bound run makes that run stale |
| `RunTheorems.StepsAreGapFree` | crates/beater-journal/src/lib.rs:732-758 | In every reachable journal the steps of each run are numbered 1, 2, 3 and so on in insertion order |
| `RunTheorems.CurrentFacts` | crates/beater-journal/src/lib.rs:584-621 | In a reachable journal a valid binding is current exactly when the goal is at the bound revision |
| `RunTheorems.StepKeepsDb` | crates/beater-journal/src/lib.rs:519-565 | Every transaction keeps the combined invariant of goals, bindings and step numbering |
| `Runs.StartAppends` | crates/beater-journal/src/lib.rs:732-758 | Starting a step appends exactly one row, numbered one past the last of its run |
| `Runs.FinishRewrites` | crates/beater-journal/src/lib.rs:760-781 | Completing or failing step n of a gap-free run sets the status and result of that one row, keeps every other row of every run, and changes nothing when the run has no step n |
| `Journal.Journal.CreateGoalBoundRun` | crates/beater-journal/src/lib.rs:529-565 | Accepted exactly when all arguments are valid, the binding is current and the id is free; then exactly this run is new, running, with the caller's agent, input and binding; a refusal changes nothing |
| `Journal.Journal.CreateRun` | crates/beater-journal/src/lib.rs:519-526 | Accepted exactly when the id is free; then exactly this run is new, running and unbound, with the caller's agent and input |
| `RunTheorems.BoundRunIsCreated` | crates/beater-journal/src/lib.rs:529-565 | In every reachable journal a bound run is created exactly when its arguments are valid, its goal is at the expected revision and its id is free, with the caller's agent, input and binding and nothing else changed |
| `Journal.Journal.Gate` | crates/beater-journal/src/lib.rs:569-582 | Reads the gate; a passed gate changes nothing and a refused one commits exactly the review mark |
| `Journal.Journal.SetRunStatus` | crates/beater-journal/src/lib.rs:666-685 | Only `running` and `completed` are gated; a success sets that one status and changes nothing else, a refusal sets `needs_review` and changes nothing else |
| `Journal.Journal.StartStep` | crates/beater-journal/src/lib.rs:732-758 | With an open gate one started row is added with the request and attempt, numbered one past the last of its run; otherwise only the review mark is set |
| `Journal.Journal.CompleteStep` | crates/beater-journal/src/lib.rs:760-767 | Without a gate: for a gap-free run, row n becomes completed with its result, every other row of every run and all goals, runs and bindings stay, and nothing changes when there is no row n |
| `Journal.Journal.FailStep` | crates/beater-journal/src/lib.rs:769-781 | Without a gate: for a gap-free run, row n becomes failed with its error, every other row of every run and all goals, runs and bindings stay, and nothing changes when there is no row n |
| `SizeLimits.StoredGoalFits` | crates/beater-journal/src/lib.rs:592-596 | Every valid goal's stored JSON is within the 65536 bytes the gate's query accepts, so that cut-off never refuses a goal the journal wrote |
| `SizeLimits.StoredBindingFits` | crates/beater-journal/src/lib.rs:624-630 | Every valid binding's stored JSON is within the 4096 bytes the gate's query accepts |
| `AgentTheorems.EffectsAreAnnounced` | crates/beater-agent/src/runner.rs:674-768 | Over any crashes, resumes and configuration changes, each dispatched effect has its own journal row with its id, name, input and key, in dispatch order |
| `AgentTheorems.EffectFollowsItsRow` | crates/beater-agent/src/runner.rs:702-768 | At the moment of an effect its row is already committed, is the newest row of the run and is still `started` |
| `AgentTheorems.EffectsRepeatOnlyWithPermission` | crates/beater-agent/src/runner.rs:803-845 | A second dispatch for an id happens only if every earlier row for that id is not completed and carries the same valid idempotent contract, name, input and key with a smaller attempt |
| `AgentTheorems.AtMostOnce` | crates/beater-agent/src/runner.rs:313-419 | An id with any row whose contract is missing, invalid or not idempotent takes effect at most once in the whole run |
| `AgentTheorems.CompletedToolsStayDone` | crates/beater-agent/src/runner.rs:313-419 | No effect for an id is announced after a completed row for it |
| `AgentTheorems.AttemptsIncrease` | crates/beater-agent/src/runner.rs:369-379 | The attempts of one id strictly increase and stay between 1 and the 64-bit maximum, so the increment never overflows |
| `AgentTheorems.RequestsFormPrefixChain` | crates/beater-agent/src/runner.rs:450-581 | Over every run the journaled model requests extend one another |
| `AgentTheorems.ToolTurnsAreAnswered` | crates/beater-agent/src/runner.rs:505-558 | A completed `tool_use` response is continued by one message holding exactly one result per tool id, in order, agreeing with every completed row |
| `AgentTheorems.ResumeRebuildsConversation` | crates/beater-agent/src/runner.rs:236-427 | A process about to send a request may crash there; a resume that has no tool to run, under whatever configuration, reaches exactly the same messages and attempt without a journal write or an effect |
| `AgentTheorems.DanglingCallIsResent` | crates/beater-agent/src/runner.rs:248-261 | A crash during a model call makes the resume send the same messages with the next attempt number |
| `AgentTheorems.CompletedOnlyAfterEndTurn` | crates/beater-agent/src/runner.rs:559-562 | However often it crashes and resumes, a run is `completed` only when its newest model response is complete and ended its turn |
| `AgentTheorems.RunIsJournalHistory` | crates/beater-agent/src/runner.rs:450-581 | A whole agent run, crashes included, is one history of journal transactions, so every journal theorem applies to it |
| `AgentTheorems.StaleRunStops` | crates/beater-agent/src/runner.rs:450-473 | Once the goal of a bound run has moved: no new request is journaled, the status never becomes running or completed, and at most the one effect already announced still happens |
| `AgentOutcomes.ReplyDecides` | crates/beater-agent/src/runner.rs:500-575 | With an open gate, a model response ends the run as completed if and only if its reason is `end_turn`, and as failed if and only if it is neither that nor `pause_turn` nor a `tool_use` with tools; its row is completed with it |
| `AgentOutcomes.ReplyAfterMove` | crates/beater-agent/src/runner.rs:559-562 | A response that arrives after the goal has moved never completes the run; one that ends its turn leaves it in `needs_review` |
| `AgentOutcomes.PauseContinues` | crates/beater-agent/src/runner.rs:503-566 | A paused turn is asked again with the assistant's words appended, as attempt 1 |
| `AgentOutcomes.FirstToolIsAnnounced` | crates/beater-agent/src/runner.rs:505-520 | The first tool of a response is journaled with its own name, input, id, key and contract before anything happens, unless its declared contract is invalid |
| `AgentOutcomes.ProviderFailureFails` | crates/beater-agent/src/runner.rs:487-492 | A failed model call leaves its row failed with the error and the run failed |
| `AgentOutcomes.OutcomeIsAnswered` | crates/beater-agent/src/runner.rs:520-550 | A tool success is journaled and answered with its content, a failure is journaled and answered as an error with its text, and an outcome that cannot be known parks the run |
| `AgentOutcomes.RefusalIsAnswered` | crates/beater-agent/src/runner.rs:674-703 | Only the two private tools can be refused before a row is written, and then the answer is an error |
| `AgentOutcomes.AnswersAreSent` | crates/beater-agent/src/runner.rs:551-558 | When every tool is answered, one message with all answers is appended and the model is asked again |
| `AgentOutcomes.FailedToolsAreErrors` | crates/beater-agent/src/runner.rs:505-558 | Over any run with crashes, the answer to a tool is an error if and only if no row for its id completed |
| `AgentOutcomes.ToolUsesInOrder` | crates/beater-agent/src/runner.rs:505-515 | The tools of a response are all of its tool-use blocks in their order |
| `AgentOutcomes.ResumeDecides` | crates/beater-agent/src/runner.rs:175-183 | A resume parks a run whose gate is shut, leaves a completed run alone, and otherwise goes on from the unchanged journal |
| `AgentOutcomes.ResumeFromNothing` | crates/beater-agent/src/runner.rs:241-245 | With no model request in the journal, a resume marks the run running and asks its own input |
| `AgentOutcomes.ResumeAsksAgain` | crates/beater-agent/src/runner.rs:246-260 | An unfinished model request is asked again unchanged as its next attempt |
| `AgentOutcomes.ResumedReplyDecides` | crates/beater-agent/src/runner.rs:261-294 | A resume that finds the newest model request answered completes, fails or continues the run exactly as the live loop does |
| `AgentOutcomes.ResumedToolsAreTaken` | crates/beater-agent/src/runner.rs:294-320 | A resumed response that asked for tools has all of them answered in order, from the rows read at the resume |
| `AgentOutcomes.ResumedToolDecides` | crates/beater-agent/src/runner.rs:317-418 | For the next tool of a resumed turn: one completed row of the same call answers it, with none the call is repeated as the next attempt when every earlier row was the same idempotent call, and anything else parks the run without a write or an effect |
| `AgentOutcomes.FiftyCallsAtMost` | crates/beater-agent/src/runner.rs:450-584 | A process that enters its loop makes at most 50 model calls, whatever happens around it, and fails the run when it comes back after the 50th |
| `AgentOutcomes.CallerInputIsAsked` | crates/beater-journal/src/lib.rs:529-565 | A bound run created in any reachable journal is, over any crashes and resumes, first asked about exactly the caller's input, as attempt 1 |
| `AgentSteps.ActKeeps` | crates/beater-agent/src/runner.rs:155-209 | Every step (tick, reply, error, effect, crash, resume, foreign transaction) keeps the agent invariant |
| `AgentSteps.ResumeKeeps` | crates/beater-agent/src/runner.rs:236-427 | Whatever rows a resume finds, it continues with a request those rows call for |
| `AgentSteps.SettleKeepsTurn` | crates/beater-agent/src/runner.rs:754-768 | Journaling a tool outcome keeps the conversation and the rows in agreement |
| `AgentProcess.ToolReplayMatches` | crates/beater-agent/src/runner.rs:803-845 | The loop with its `found` flag accepts exactly when at least one row for the id exists and all of them allow the replay under the current contract |
| `AgentProcess.Process.AgentLoop` | crates/beater-agent/src/runner.rs:450-581 | The loop over model calls and tools is a run of the step model that ends with the process gone |
| `AgentProcess.Process.Iterate` | crates/beater-agent/src/runner.rs:451-494 | One iteration (gate read, started row, model call, response) is a run of the step model |
| `AgentProcess.Process.Converse` | crates/beater-agent/src/runner.rs:476-577 | The handling of a response, with its pushes onto the messages, is a run of the step model |
| `AgentProcess.Process.RunTools` | crates/beater-agent/src/runner.rs:506-551 | The loop that pushes one result per tool use is a run of the step model |
| `AgentProcess.Process.ExecuteToolStep` | crates/beater-agent/src/runner.rs:674-768 | Gate, started row, effect and outcome row happen as the step model says, review and crash included |
| `AgentProcess.Process.ResumeTools` | crates/beater-agent/src/runner.rs:313-419 | The resume loop over tool uses (reuse, replay or park) is a run of the step model |
| `AgentProcess.Process.ResumeRun` | crates/beater-agent/src/runner.rs:236-427 | Resuming from the rows of a run is a run of the step model |
| `CanonicalJson.CanonicalReadsBack` | crates/beater-journal/src/decision_audit.rs:227-270 | The canonical printer is invertible: a JSON reader gives back exactly the printed value up to key order |
| `CanonicalJson.CanonicalTextIdentifies` | crates/beater-journal/src/decision_audit.rs:227-270 | Two integer-only values have the same canonical text exactly when they are equal as JSON values with unordered objects |
| `CanonicalJson.SameObjects` | crates/beater-journal/src/decision_audit.rs:252-267 | Objects with unique keys are the same value exactly when they bind the same keys to the same values |
| `CanonicalJson.CanonicalTextSurvivesParse` | crates/beater-journal/src/decision_audit.rs:227-270 | Parsing a canonical text and printing it again gives the same text |
| `Printers.CanonicalValue` | crates/beater-journal/src/decision_audit.rs:227-270 | The printer that appends to one output writes exactly the canonical text, and fails exactly when a floating-point number occurs |
| `GoalRecords.SnapshotReadsBack` | crates/beater-journal/src/decision_audit.rs:535-602 | A goal snapshot survives storage: its canonical bytes parse to a goal that is still valid, has the same identity and prints as the same bytes |
| `GoalRecords.NormalGoalIsValid` | crates/beater-journal/src/lib.rs:320-336 | Goal validation does not depend on the order of keys inside parameter values |
| `DecisionTypes.PackageIdentified` | crates/beater-journal/src/decision_audit.rs:272-278 | Packages with equal canonical bytes are equal in every field |
| `DecisionTypes.PackageSurvives` | crates/beater-journal/src/decision_audit.rs:844-854 | A stored package body parses back to the package that was stored |
| `DecisionAudit.ReadRow` | crates/beater-journal/src/decision_audit.rs:819-873 | Accepts exactly the rows that pass every check of the reader |
| `DecisionAudit.ReadRows` | crates/beater-journal/src/decision_audit.rs:817-877 | The loop carrying the previous digest accepts exactly the listings in which every row passes its checks after its predecessor |
| `DecisionAudit.ReadDecisionProjection` | crates/beater-journal/src/decision_audit.rs:771-891 | For arbitrary tables: returns the complete event list, or refuses exactly when the binding, a row, a link or the count is wrong |
| `DecisionTheorems.ProjectionIsChain` | crates/beater-journal/src/decision_audit.rs:771-891 | Whatever is in the tables, a projection that is returned is a complete chain of individually verified, consecutively numbered and linked events |
| `DecisionTheorems.ChainBinds` | crates/beater-journal/src/decision_audit.rs:306-380 | Two verified chains that end in the same digest are equal event by event, or exhibit two different byte strings that were hashed in them with one digest |
| `DecisionTheorems.TamperingShows` | crates/beater-journal/src/decision_audit.rs:306-380 | Two stores that agree on the last digest of a decision agree on the decision and its whole history, or exhibit such a collision |
| `DecisionTheorems.WriterAgreesWithVerifier` | crates/beater-journal/src/decision_audit.rs:604-722 | On tables whose decisions read back, an append never fails the re-read or a uniqueness constraint; it changes nothing or adds exactly one event that the reader accepts, and every decision still reads back |
| `DecisionTheorems.WrittenEventVerifies` | crates/beater-journal/src/decision_audit.rs:691-715 | The event the writer builds passes the verifier, which recomputes the request digest with `sequence - 1` |
| `DecisionTheorems.EveryDecisionReads` | crates/beater-journal/src/decision_audit.rs:724-735 | In every reachable journal every recorded decision can be read, whatever happened to its goal since |
| `DecisionTheorems.RepeatChangesNothing` | crates/beater-journal/src/decision_audit.rs:657-674 | Repeating a committed append after any later history, while the binding is current, changes nothing and returns the decision |
| `DecisionTheorems.CurrentBindingStable` | crates/beater-journal/src/decision_audit.rs:535-561 | As long as a run's binding is current its goal body and digest are the same |
| `DecisionAcceptance.CurrentBindingExactly` | crates/beater-journal/src/decision_audit.rs:535-563 | In a reachable journal a run may append exactly when it is bound to the current revision of its goal and that goal's canonical bytes are within the limit; the digest is theirs |
| `DecisionAcceptance.AppendAccepted` | crates/beater-journal/src/decision_audit.rs:604-722 | A valid append with a new request id and a current binding succeeds if and only if it opens a decision at revision 1 in a scope with fewer than 10000, or continues a decision of the same run and goal state at its current revision; exactly its event is added, with its run, goal, package and time, and a refusal changes nothing |
| `DecisionAcceptance.EventFits` | crates/beater-journal/src/decision_audit.rs:272-278 | The printed event of a write never exceeds the body limit |
| `DecisionAcceptance.UsedIdIsAnswered` | crates/beater-journal/src/decision_audit.rs:655-674 | A used request id changes nothing: the same content is answered with the decision, other content is refused unless the two texts are a collision of the digest |
| `DecisionJournal.DecisionJournal.AppendDecisionPackage` | crates/beater-journal/src/decision_audit.rs:604-722 | The transaction has exactly the specified result and new tables, rollback on a failed re-read included |
| `DecisionJournal.DecisionJournal.InsertEvent` | crates/beater-journal/src/decision_audit.rs:691-721 | Event row, revision update and re-read commit together or not at all |
| `ReadProjection.GoalActivityPage` | crates/beater-journal/src/read_projection.rs:181-302 | Returns exactly the page at the cursor, each receipt repeating the only event row of its revision, or refuses exactly on a bad argument or a malformed history |
| `ReadProjection.ReadRevisions` | crates/beater-journal/src/read_projection.rs:212-249 | The loop with its expected revision accepts exactly the windows without gaps, one row of look-ahead included |
| `ReadProjection.ReadReceipts` | crates/beater-journal/src/read_projection.rs:251-276 | Accepts exactly when each revision has one well-formed event of its timestamp, and then repeats that event's kind and time |
| `ReadProjection.PagesAdvance` | crates/beater-journal/src/read_projection.rs:277-296 | Pages hold 1 to 100 receipts, their next cursor is valid, keeps the snapshot and is strictly closer to it |
| `ReadProjection.WalkFailsClosed` | crates/beater-journal/src/read_projection.rs:181-302 | Over changing arbitrary tables, a walk that finishes has listed every revision once and in order, and each receipt repeats the only event row that some table state had for its revision |
| `ReadProjection.WalkIsExact` | crates/beater-journal/src/read_projection.rs:181-302 | From any reachable journal, with any transactions between the pages, the walk lists exactly revisions 1..snapshot in at most snapshot/100 + 1 pages |
| `ReadProjection.WalkNamesRequests` | crates/beater-journal/src/read_projection.rs:183-290 | In the walk over a reachable journal, the receipt of revision r names the kind of the request that took the goal to r (`created`, `revised` or `milestone_recorded`) and its time |
| `ReadProjection.ApplyPreserves` | crates/beater-journal/src/lib.rs:897-916 | No transaction changes a past revision or its event |
| `ReadProjection.Summarize` | crates/beater-journal/src/read_projection.rs:113-177 | For arbitrary tables: returns the summary with the exact number of milestones in each state, or refuses exactly when a consistency check fails; the unreachable arm is unreachable |
| `ReadProjection.CountMilestones` | crates/beater-journal/src/read_projection.rs:86-109 | The counting loop gives the sizes of the three sets of milestones by preparation, or refuses exactly when a row is inconsistent |
| `ReadProjection.SummaryAcceptsReachable` | crates/beater-journal/src/read_projection.rs:113-177 | For every existing goal of every reachable journal no corruption check fires and the counts sum to the number of milestones, at most 128 |
| `Printers.CanonicalJsonBytes` | crates/beater-agent/src/resume_contract.rs:59-134 | The bounded printer returns bytes exactly when depth is at most 32, nodes at most 16384 and the canonical form at most 1048576 bytes, and then returns that form |
| `Printers.WriteBounded` | crates/beater-agent/src/resume_contract.rs:87-128 | One value is written exactly when it fits the remaining depth, nodes and bytes, and the shared counters move by exactly its size |
| `Printers.WriteArray` | crates/beater-agent/src/resume_contract.rs:96-108 | The early length cut-off and the loop accept exactly the arrays that fit |
| `Printers.WriteObject` | crates/beater-agent/src/resume_contract.rs:109-125 | The sorted-key loop accepts exactly the objects that fit |
| `ResumeContract.New` | crates/beater-agent/src/resume_contract.rs:26-36 | A contract is made exactly for a usable name and a descriptor within the limits, and is then valid |
| `ResumeContract.FingerprintDetectsDrift` | crates/beater-agent/src/resume_contract.rs:50-57 | Fingerprints ignore key order and otherwise differ for different descriptors, or exhibit a digest collision |
| `Sse.DecodeStream` | crates/beater-agent/src/anthropic.rs:103-164 | Pushing any chunks and finishing gives what one pass over the concatenated bytes gives, refusal of invalid UTF-8 included |
| `Sse.SseDecoder.Push` | crates/beater-agent/src/anthropic.rs:104-120 | Consumes exactly the complete lines of the buffered bytes, returns their events and keeps the rest |
| `Sse.SseDecoder.Finish` | crates/beater-agent/src/anthropic.rs:122-134 | Treats an unfinished line and an unfinished event as the end of the stream does, trailing carriage returns stripped |
| `Sse.SseDecoder.PushLine` | crates/beater-agent/src/anthropic.rs:136-153 | One line changes the collected fields or flushes them |
| `Sse.PrintedFramesDecode` | crates/beater-agent/src/llm.rs:437-498 | Decoding printed frames gives the events back, those without a name as `message`, when names and data lines hold no line feed and do not end in a carriage return |
| `Sse.LineIsRead` | crates/beater-agent/src/llm.rs:470-487 | One space after the colon is dropped, a line without a colon has an empty value, a line starting with one is a comment, and only `event` and `data` fields matter |
| `Sse.BrokenOffEventCounts` | crates/beater-agent/src/llm.rs:456-468 | An event broken off inside its last line is still returned, with its trailing carriage returns dropped and the default name `message` |
| `Sse.LineSurvives` | crates/beater-agent/src/llm.rs:438-454 | A data line without line feeds is read back exactly when it does not end in a carriage return |
| `Sse.SplitContinues` | crates/beater-agent/src/anthropic.rs:104-120 | More bytes complete the unfinished line and never change finished ones |
| `MessageStream.MessageStreamAssembler.Apply` | crates/beater-agent/src/anthropic.rs:211-300 | One event changes exactly its own block or the message, as specified, or is refused |
| `MessageStream.MessageStreamAssembler.Finish` | crates/beater-agent/src/anthropic.rs:302-318 | The message is finished exactly when it was started and stopped, with its blocks in index order |
| `MessageStream.ChannelsAreIndependent` | crates/beater-agent/src/anthropic.rs:211-300 | Assembling an interleaved stream succeeds exactly when each block and the message level succeed by themselves, and is their side-by-side result |
| `MessageStream.InterleavingIsIrrelevant` | crates/beater-agent/src/anthropic.rs:210-325 | Two streams with the same events in the same order within each block and at message level give the same final message |
| `MessageStream.DeltasAccumulate` | crates/beater-agent/src/anthropic.rs:227-263 | A block's text, thinking and JSON are its initial values followed by the concatenation of its deltas, whatever their mix |
| `MessageStream.ToolInputIsParsed` | crates/beater-agent/src/anthropic.rs:264-276 | A tool-use block ends with the parse of its concatenated JSON deltas, or the stream is refused |
| `MessageStream.OutcomeIsMessage` | crates/beater-agent/src/anthropic.rs:211-318 | A stream that starts with an object is a message exactly when every channel succeeds and it was stopped; the message has the newest stop reason, each block in index order as its own events built it, and every other announced member |
| `MessageStream.UsageAccumulates` | crates/beater-agent/src/anthropic.rs:277-300 | A message delta replaces the usage counters it names and keeps the others |
| `MessageStream.EventIsRead` | crates/beater-agent/src/anthropic.rs:212-300 | Every event is read back from the JSON in which it is sent |
| `OpenAiStream.OpenAiStreamAssembler.Apply` | crates/beater-agent/src/llm.rs:566-615 | A chunk contributes exactly its pieces: head, texts, calls, the legacy single call and the finish reason |
| `OpenAiStream.FinishStream` | crates/beater-agent/src/llm.rs:617-677 | The message is built exactly when the stream is done, has a finish reason and all arguments parse; its stop reason is `tool_use` exactly for `tool_calls`, `function_call`, `tool_use` or `stop` with a call, and its content is the text, if any, and one block for each call in index order |
| `OpenAiStream.ChannelsAreIndependent` | crates/beater-agent/src/llm.rs:553-615 | Text, head, reason and each call are functions of their own pieces alone: concatenations, first and last values |
| `OpenAiStream.InterleavingIsIrrelevant` | crates/beater-agent/src/llm.rs:566-677 | The finished message depends only on the whole text, the head, the reason and the newest id, whole name and whole arguments of each call, not on how they were interleaved or cut into fragments |
| `OpenAiStream.ReadStream` | crates/beater-agent/src/llm.rs:252-263 | Handing the events one by one to the assembler gives the message of all their pieces together, with that stop reason and content, and refuses bad or reported errors and data after the end mark |
| `OpenAiStream.ChunksBeforeDone` | crates/beater-agent/src/llm.rs:512-536 | A stream of events is read exactly when it is a run of readable chunks followed only by end marks, and then chunk by chunk in order |
| `OpenAiStream.StreamsAgree` | crates/beater-agent/src/llm.rs:512-677 | Two streams of events that agree channel by channel give the same message, however text and arguments were cut into events |
| `OpenAiStream.ChunksAreRead` | crates/beater-agent/src/llm.rs:566-613 | Contributions sent as one chunk each are read back as the same contributions in order |
| `OpenAiStream.LegacyCallIsRead` | crates/beater-agent/src/llm.rs:596-607 | The older single-function form is a piece of the first call |
| `ToolNames.FromTools` | crates/beater-agent/src/llm.rs:685-708 | Fails exactly when two different declared names collide, and otherwise fills both maps with exactly the declared names |
| `ToolNames.ProviderNameIsAcceptable` | crates/beater-agent/src/llm.rs:718-741 | Every provider name is non-empty, at most 64 characters and only letters, digits, `_` and `-`; acceptable names are sent unchanged and only they are |
| `ToolNames.ChangedNameKeepsPrefix` | crates/beater-agent/src/llm.rs:718-741 | A name that cannot be sent keeps up to 54 of its characters, the others replaced by `_`, and ends in two underscores and its hash |
| `ToolNames.HashesTellApart` | crates/beater-agent/src/llm.rs:718-741 | Two changed names of different hashes never collide |
| `ToolNames.DeclaredAreRead` | crates/beater-agent/src/llm.rs:685-692 | Tools declared by name are read under those names, in order |
| `ToolNames.NamesSurvive` | crates/beater-agent/src/llm.rs:710-716 | Every declared tool maps to an acceptable provider name and back to itself |
| `ToolNames.AcceptableNamesDoNotCollide` | crates/beater-agent/src/llm.rs:685-708 | Declared names that are already acceptable never collide |
| `Router.Scan` | crates/beater-runtime/src/router.rs:39-127 | Fails exactly when two routes share a pattern, and otherwise returns the routes in table order |
| `Router.HasDuplicate` | crates/beater-runtime/src/router.rs:92-109 | Comparing neighbours of the list sorted by pattern finds a duplicate exactly when there is one |
| `Router.ScanIsOrderIndependent` | crates/beater-runtime/src/router.rs:110-126 | The table, or its refusal, is the same for every order in which the files are enumerated |
| `Router.ScanMakesTable` | crates/beater-runtime/src/router.rs:39-127 | Every table a scan returns is sorted, has no two routes of one pattern, and each route got its segments and pattern from one file path |
| `Router.SortRoutesSorts` | crates/beater-runtime/src/router.rs:110-126 | The comparison is a total order and the table is sorted by it |
| `Router.MatchPath` | crates/beater-runtime/src/router.rs:139-159 | Returns nothing exactly when the path does not decode or no route matches, and otherwise a matching route that wins against every other matching route at their first difference, the static one of two exactly when no parameter name decides earlier against it |
| `Router.MatchParts` | crates/beater-runtime/src/router.rs:142-157 | Returns the first matching route of the table with its parameters |
| `Router.ChoiceIsMinimal` | crates/beater-runtime/src/router.rs:111-166 | The first match is static where it first differs from another match, or both are parameters and its name is smaller |
| `Router.StaticWinsExactly` | crates/beater-runtime/src/router.rs:110-126 | For two routes of any table that match one path, with k the first depth where one is static and the other a parameter: the static one comes first if and only if their segments above k are equal, or the first difference above k is a parameter name that favours it |
| `Router.ChoiceFollowsRule` | crates/beater-runtime/src/router.rs:139-159 | The route chosen for a path is the static one of such a pair exactly under that condition |
| `Router.NameMayDecideFirst` | crates/beater-runtime/src/router.rs:110-126 | The files `[a]/[z].ts` and `[b]/x.ts` scan to two routes that both match `/y/x`, the second static at the first depth of different kinds and yet not favoured |
| `Router.AskTwoFiles` | crates/beater-runtime/src/router.rs:39-159 | Scanning those two files and matching `/y/x` returns the route `/[a]/[z]` with its two parameters |
| `Router.PlainSegment` | crates/beater-runtime/src/router.rs:175-198 | A path segment without a percent sign stands for itself |
| `Router.Reach` | crates/beater-runtime/src/router.rs:39-159 | Whatever other files there are, the path of a file under literal names is answered by its own route, as a page exactly for `tsx` and `jsx`, without parameters |
| `Router.ParamsNameParts` | crates/beater-runtime/src/router.rs:143-155 | Exactly the parameters of the route are named, each with the part at its last occurrence |
| `Router.PercentDecodeSegment` | crates/beater-runtime/src/router.rs:175-198 | The index loop computes exactly the recursive decoding, refusals included |
| `Router.EscapesDecode` | crates/beater-runtime/src/router.rs:175-198 | A fully escaped text decodes to itself exactly when it holds no slash and no zero byte |
| `Router.NoHiddenSlash` | crates/beater-runtime/src/router.rs:180-187 | A decoded segment never contains a slash that the path did not show |
| `TextEncoder.Encode` | crates/beater-runtime/src/bootstrap.js:199-207 | The unit loop writes the UTF-8 encoding of the string's code points |
| `TextEncoder.EncodingDecodes` | crates/beater-runtime/src/bootstrap.js:183-207 | For every well-formed UTF-16 string, decoding the output gives the string back |
| `TextEncoder.OutputIsUtf8` | crates/beater-runtime/src/bootstrap.js:183-207 | The output is valid UTF-8 exactly when every surrogate of the input belongs to a pair |
| `TextEncoder.EncodeInto` | crates/beater-runtime/src/bootstrap.js:208-222 | Writes exactly the encoding of the units it reports as read, touches nothing past it, never overruns the buffer or splits a pair, and stops only when the next code point does not fit |
| `Utf8.DecodeAfterEncode` | crates/beater-runtime/src/bootstrap.js:183-194 | Decoding per section 3 of RFC 3629 inverts the byte arithmetic for all scalar values |
| `Utf8.EncodeAfterDecode` | crates/beater-runtime/src/bootstrap.js:183-194 | Bytes the standard decoder accepts are the encoding of what it decodes |

## Left out

- SQLite itself: each transaction is atomic and serialised, and a failed one changes nothing. Column type tests (`typeof`) and rows whose JSON does not parse are not modelled, except for the binding column, whose malformed values are.
- RunTheorems.GateFailsClosed: tables whose stored goal or binding text was tampered with to exceed the cut-offs are refused by the code and not part of the tables here (Runs.BindingIsCurrent).
- Runs.BindingIsCurrent: leaves out the 65536 and 4096 byte cut-offs of the gate's queries, because SizeLimits.StoredGoalFits and SizeLimits.StoredBindingFits show that nothing the journal writes reaches them.
- The partials table and the plain listing queries (`step_partials`, `list_runs`, history windows): they would only add easy members.
- Journal.Journal.Invalidate: a milestone row is addressed by its key column; the code uses the id inside the stored body, which is the same in every reachable journal (GoalTheorems.HistoriesAreLinear).
- Clock readings: one non-negative reading is shared by the rows of one transaction.
- Agent.TickProcess: the model attempt number is unbounded; only tool attempts are proved to stay within 64 bits, because the code checks only those.
- Agent.StartTool: the gate that the runner reads just before it starts a model call is part of AgentProcess.Process.Iterate; in the step machine it is one with the gate of `start_step`.
- HTTP, provider clients, embedded interpreters, browser sessions, trace export and printing: effects are entries of a log and replies are arbitrary inputs.
- SHA-256 and FNV-1a: arbitrary functions; only the length and alphabet of their output are used.
- JsonParser.Parse: reads the compact text the canonical printer produces, not all of JSON; a stored body in any other form is refused here as it is by the code, which reprints what it parsed and compares. The typed readers treat an absent optional member as an error, which that comparison refuses as well.
- DecisionAudit.ReadDecisionProjection: integers are unbounded in JsonParser.ParseInt, so tampered bytes with an integer outside the 64-bit ranges are read here and refused by the code; nothing the journal writes holds such an integer.
- Json.Float: a float is a token that is stored and compared as it is. In the code a float in goal parameters or tool inputs may change in its last bit when a stored body is parsed again, and `0.0` equals `-0.0`; GoalTheorems.FreshnessIsSound, GoalTheorems.RecordingChangesOne, GoalTheorems.RepeatReturnsOriginal and AgentTheorems.ResumeRebuildsConversation are exact for values without floats, and up to that rounding otherwise.
- OpenAiStream.ReadStream: the callback that records each partial chunk, whose failure ends the stream, is left out.
- MessageStream.Parser: parsing of streamed tool input is a parameter, since only its result matters.
- Printers.AppendBytes: a string is appended whole; the code streams its pieces against the same limit, with the same final outcome.
- The decision read that is bound to a current run (`current_goal_run_decision_audit`): two more comparisons on top of DecisionAudit.ReadDecisionProjection and DecisionAudit.CurrentBinding.
- Decisions are not connected to the agent's private tool calls; the private tools appear in the agent model as tools whose input may be refused before a row is written.
- File locks, directories and permissions; environment selection, URL validation, bundling, crawling and scaffolding: plumbing.
- The queue machine of the stream shim in `crates/beater-runtime/src/bootstrap.js` is not part of this model.
