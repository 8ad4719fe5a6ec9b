// The contents of journaled steps: model requests, tool requests and results.
module StepTypes {
  import opened Basics
  import opened Json
  import opened GoalTypes
  import Utf8

  const CONTRACT_VERSION := 1
  const MAX_TOOL_NAME := 256

  /** The declaration fingerprint recorded with a tool call. */
  datatype Contract = Contract(version: int, name: string, idempotent: bool, fingerprint: string)

  predicate ValidContract(c: Contract) {
    c.version == CONTRACT_VERSION && c.name != "" && Utf8.ByteLen(c.name) <= MAX_TOOL_NAME && LowerHex(c.fingerprint)
  }

  datatype Block =
    | TextBlock(text: string)
    | ToolUse(id: string, name: string, input: Value)

  datatype ToolResult = ToolResult(toolUseId: string, content: string, isError: bool)

  datatype Message =
    | UserPrompt(prompt: string)
    | Assistant(content: seq<Block>)
    | ToolResults(results: seq<ToolResult>)

  datatype Response = Response(content: seq<Block>, stopReason: string)

  datatype StepRequest =
    | LlmCall(messages: seq<Message>)
    | ToolCall(name: string, input: Value, toolUseId: string, key: Option<string>, contract: Option<Contract>)

  datatype StepResult =
    | Reply(response: Response)
    | Content(content: string)
    | Failure(error: string)

  datatype StepStatus = Started | Completed | Failed

  datatype StepRow = StepRow(
    run: string, seqNo: int, status: StepStatus, request: StepRequest, result: Option<StepResult>, attempt: int)
}
