// Assembly of an OpenAI-compatible stream into the same message shape.
module OpenAiStream {
  import opened Basics
  import opened Json
  import opened GoalTypes
  import opened Slots
  import MessageStream
  import Sse

  datatype CallState = CallState(id: Option<string>, name: string, arguments: string)

  const NEW_CALL := CallState(None, "", "")

  type Calls = seq<Option<CallState>>

  datatype Assembly = Assembly(id: Option<string>, model: Option<string>, text: string, calls: Calls, reason: Option<string>)

  const EMPTY := Assembly(None, None, "", [], None)

  /** The smallest contributions of a chunk, in the order it makes them. */
  datatype Piece =
    | IdPiece(id: string)
    | ModelPiece(model: string)
    | TextPiece(text: string)
    | CallPiece(index: nat, callId: Option<string>, name: string, arguments: string)
    | ReasonPiece(reason: string)

  /** One call after one more piece of it: the newest id, the names and arguments appended. */
  function WithPiece(call: Option<CallState>, p: Piece): CallState
    requires p.CallPiece?
  {
    var state := if call.Some? then call.value else NEW_CALL;
    CallState(if p.callId.Some? then p.callId else state.id, state.name + p.name, state.arguments + p.arguments)
  }

  function Step(s: Assembly, p: Piece): Assembly {
    match p
    case IdPiece(id) => if s.id.None? then s.(id := Some(id)) else s
    case ModelPiece(model) => if s.model.None? then s.(model := Some(model)) else s
    case TextPiece(text) => s.(text := s.text + text)
    case CallPiece(index, _, _, _) =>
      var calls := Extended(s.calls, index);
      s.(calls := calls[index := Some(WithPiece(calls[index], p))])
    case ReasonPiece(reason) => s.(reason := Some(reason))
  }

  function Fold(s: Assembly, ps: seq<Piece>): Assembly {
    if ps == [] then s else Step(Fold(s, ps[..|ps| - 1]), ps[|ps| - 1])
  }

  lemma {:induction false} FoldThen(s: Assembly, a: seq<Piece>, b: seq<Piece>)
    ensures Fold(s, a + b) == Fold(Fold(s, a), b)
    decreases |b|
  {
    hide Step;
    if b == [] {
      assert a + b == a;
    } else {
      assert (a + b)[..|a + b| - 1] == a + b[..|b| - 1];
      FoldThen(s, a, b[..|b| - 1]);
    }
  }

  lemma FoldOne(s: Assembly, p: Piece)
    ensures Fold(s, [p]) == Step(s, p)
  {
    assert [p][..0] == [];
  }

  // ------------------------------------------------------------------- chunks

  function Get(v: Value, key: string): Value {
    MessageStream.Get(v, key)
  }

  function TextOption(v: Value): Option<string> {
    if v.Str? then Some(v.text) else None
  }

  function NonEmpty(v: Value): Option<string> {
    if v.Str? && v.text != "" then Some(v.text) else None
  }

  function Items(v: Value): seq<Value> {
    if v.Arr? then v.items else []
  }

  function CallPieceOf(call: Value): (p: Piece)
    ensures p.CallPiece?
  {
    var index := MessageStream.IndexOf(Get(call, "index"));
    var fn := Get(call, "function");
    CallPiece(if index.Some? then index.value else 0, NonEmpty(Get(call, "id")),
              MessageStream.TextOr(Get(fn, "name")), MessageStream.TextOr(Get(fn, "arguments")))
  }

  /** The older single-function form always means the first call. */
  function FunctionCallPieces(call: Value): seq<Piece> {
    if call.Obj? then
      [CallPiece(0, None, MessageStream.TextOr(Get(call, "name")), MessageStream.TextOr(Get(call, "arguments")))]
    else []
  }

  function CallPieces(calls: seq<Value>): seq<Piece> {
    if calls == [] then [] else CallPieces(calls[..|calls| - 1]) + [CallPieceOf(calls[|calls| - 1])]
  }

  function TextPieces(delta: Value): seq<Piece> {
    if Get(delta, "content").Str? then [TextPiece(Get(delta, "content").text)] else []
  }

  function ReasonPieces(choice: Value): seq<Piece> {
    var reason := NonEmpty(Get(choice, "finish_reason"));
    if reason.Some? then [ReasonPiece(reason.value)] else []
  }

  function ChoicePieces(choice: Value): seq<Piece> {
    var delta := Get(choice, "delta");
    TextPieces(delta) + CallPieces(Items(Get(delta, "tool_calls"))) + FunctionCallPieces(Get(delta, "function_call"))
    + ReasonPieces(choice)
  }

  function ChoicesPieces(choices: seq<Value>): seq<Piece> {
    if choices == [] then [] else ChoicesPieces(choices[..|choices| - 1]) + ChoicePieces(choices[|choices| - 1])
  }

  function HeadPieces(chunk: Value): seq<Piece> {
    (if Get(chunk, "id").Str? then [IdPiece(Get(chunk, "id").text)] else [])
    + (if Get(chunk, "model").Str? then [ModelPiece(Get(chunk, "model").text)] else [])
  }

  function Pieces(chunk: Value): seq<Piece> {
    HeadPieces(chunk) + ChoicesPieces(Items(Get(chunk, "choices")))
  }

  // ------------------------------------------------------------ the assembler

  class OpenAiStreamAssembler {
    var id: Option<string>
    var model: Option<string>
    var text: string
    var toolCalls: Calls
    var finishReason: Option<string>

    constructor ()
      ensures State() == EMPTY
    {
      id, model, text, toolCalls, finishReason := None, None, "", [], None;
    }

    ghost function State(): Assembly
      reads this
    {
      Assembly(id, model, text, toolCalls, finishReason)
    }

    method Apply(chunk: Value)
      modifies this
      ensures State() == Fold(old(State()), Pieces(chunk))
    {
      hide Fold, Get, ChoicePieces;
      ghost var start := State();
      if id.None? {
        id := TextOption(Get(chunk, "id"));
      }
      if model.None? {
        model := TextOption(Get(chunk, "model"));
      }
      HeadFolds(start, chunk);
      ghost var headed := State();
      var choices := Items(Get(chunk, "choices"));
      assert Fold(headed, []) == headed by { FoldNothing(headed); }
      for i := 0 to |choices|
        invariant State() == Fold(headed, ChoicesPieces(choices[..i]))
      {
        assert choices[..i + 1][..i] == choices[..i];
        FoldThen(headed, ChoicesPieces(choices[..i]), ChoicePieces(choices[i]));
        ApplyChoice(choices[i]);
      }
      assert choices[..|choices|] == choices;
      FoldThen(start, HeadPieces(chunk), ChoicesPieces(choices));
    }

    method ApplyChoice(choice: Value)
      modifies this
      ensures State() == Fold(old(State()), ChoicePieces(choice))
    {
      hide Fold, Get, CallPieceOf;
      ghost var start := State();
      var delta := Get(choice, "delta");
      FoldNothing(start);
      if Get(delta, "content").Str? {
        FoldOne(start, TextPiece(Get(delta, "content").text));
        text := text + Get(delta, "content").text;
      }
      ghost var texted := State();
      var calls := Items(Get(delta, "tool_calls"));
      FoldNothing(texted);
      for i := 0 to |calls|
        invariant State() == Fold(texted, CallPieces(calls[..i]))
      {
        assert calls[..i + 1][..i] == calls[..i];
        FoldThen(texted, CallPieces(calls[..i]), [CallPieceOf(calls[i])]);
        ApplyCall(CallPieceOf(calls[i]));
      }
      assert calls[..|calls|] == calls;
      FoldThen(start, TextPieces(delta), CallPieces(calls));
      ghost var called := State();
      FoldNothing(called);
      var single := FunctionCallPieces(Get(delta, "function_call"));
      if single != [] {
        ApplyCall(single[0]);
        assert single == [single[0]];
      }
      FoldThen(start, TextPieces(delta) + CallPieces(calls), single);
      ghost var functioned := State();
      FoldNothing(functioned);
      var reason := NonEmpty(Get(choice, "finish_reason"));
      if reason.Some? {
        FoldOne(functioned, ReasonPiece(reason.value));
        finishReason := reason;
      }
      FoldThen(start, TextPieces(delta) + CallPieces(calls) + single, ReasonPieces(choice));
    }

    method ApplyCall(p: Piece)
      requires p.CallPiece?
      modifies this`toolCalls
      ensures State() == Fold(old(State()), [p])
    {
      hide Fold, WithPiece;
      ghost var start := State();
      FoldOne(start, p);
      while |toolCalls| <= p.index
        invariant Extended(toolCalls, p.index) == Extended(start.calls, p.index)
        decreases p.index + 1 - |toolCalls|
      {
        toolCalls := toolCalls + [None];
      }
      toolCalls := toolCalls[p.index := Some(WithPiece(toolCalls[p.index], p))];
    }
  }

  /** Builds the message: text first, then the calls by index, the stop reason last. */
  method FinishStream(c: Context, s: Assembly, sawDone: bool) returns (r: Option<Value>)
    ensures r == Finished(c, s, sawDone)
    ensures r.Some? <==> sawDone && s.reason.Some? && AllParse(c, s.calls)
    ensures r.Some? ==> IsMessage(c, s, r.value)
  {
    hide InputOf, CallBlock, IsMessage, AllParse;
    FinishedIsMessage(c, s, sawDone);
    if !sawDone {
      return None;
    }
    var blocks: seq<Value> := [];
    var usesTools := false;
    for i := 0 to |s.calls|
      invariant CallBlocks(c, s.calls[..i]) == Some(blocks)
      invariant usesTools <==> blocks != []
    {
      assert s.calls[..i + 1][..i] == s.calls[..i];
      if s.calls[i].Some? {
        var input := InputOf(c, s.calls[i].value.arguments);
        if input.None? {
          RefusedCallStays(c, s.calls, i + 1);
          return None;
        }
        blocks := blocks + [CallBlock(c, i, s.calls[i].value, input.value)];
        usesTools := true;
      }
    }
    assert s.calls[..|s.calls|] == s.calls;
    if s.reason.None? {
      return None;
    }
    var content := if s.text != "" then [TextBlock(s.text)] else [];
    return Some(Obj([
      Field("id", Str(if s.id.Some? then s.id.value else "chatcmpl_openai_compatible")),
      Field("type", Str("message")),
      Field("role", Str("assistant")),
      Field("model", if s.model.Some? then Str(s.model.value) else c.requestModel),
      Field("content", Arr(content + blocks)),
      Field("stop_reason", Str(StopReason(s.reason.value, usesTools)))]));
  }

  lemma {:induction false} RefusedCallStays(c: Context, calls: Calls, k: nat)
    requires k <= |calls| && CallBlocks(c, calls[..k]).None?
    ensures CallBlocks(c, calls).None?
    decreases |calls| - k
  {
    hide InputOf, CallBlock;
    if k == |calls| {
      assert calls[..k] == calls;
    } else {
      assert calls[..k + 1][..k] == calls[..k];
      RefusedCallStays(c, calls, k + 1);
    }
  }

  lemma FoldNothing(s: Assembly)
    ensures Fold(s, []) == s
  {
  }

  lemma HeadFolds(s: Assembly, chunk: Value)
    ensures Fold(s, HeadPieces(chunk))
            == s.(id := if s.id.None? then TextOption(Get(chunk, "id")) else s.id,
                  model := if s.model.None? then TextOption(Get(chunk, "model")) else s.model)
  {
    hide Get;
    var ids: seq<Piece> := if Get(chunk, "id").Str? then [IdPiece(Get(chunk, "id").text)] else [];
    var models: seq<Piece> := if Get(chunk, "model").Str? then [ModelPiece(Get(chunk, "model").text)] else [];
    FoldThen(s, ids, models);
    if ids != [] {
      FoldOne(s, ids[0]);
    }
    if models != [] {
      FoldOne(Fold(s, ids), models[0]);
    }
  }

  // ------------------------------------------------------------- one channel

  function Texts(ps: seq<Piece>): string {
    if ps == [] then "" else Texts(ps[..|ps| - 1]) + if ps[|ps| - 1].TextPiece? then ps[|ps| - 1].text else ""
  }

  function CallsFor(ps: seq<Piece>, i: nat): (r: seq<Piece>)
    ensures forall k :: 0 <= k < |r| ==> r[k].CallPiece?
  {
    if ps == [] then []
    else CallsFor(ps[..|ps| - 1], i) + if ps[|ps| - 1].CallPiece? && ps[|ps| - 1].index == i then [ps[|ps| - 1]] else []
  }

  function FirstId(ps: seq<Piece>): Option<string> {
    if ps == [] then None
    else if FirstId(ps[..|ps| - 1]).Some? then FirstId(ps[..|ps| - 1])
    else if ps[|ps| - 1].IdPiece? then Some(ps[|ps| - 1].id) else None
  }

  function FirstModel(ps: seq<Piece>): Option<string> {
    if ps == [] then None
    else if FirstModel(ps[..|ps| - 1]).Some? then FirstModel(ps[..|ps| - 1])
    else if ps[|ps| - 1].ModelPiece? then Some(ps[|ps| - 1].model) else None
  }

  function LastReason(ps: seq<Piece>): Option<string> {
    if ps == [] then None
    else if ps[|ps| - 1].ReasonPiece? then Some(ps[|ps| - 1].reason) else LastReason(ps[..|ps| - 1])
  }

  // What the pieces of one call amount to.

  function LastId(ps: seq<Piece>): Option<string>
    requires forall k :: 0 <= k < |ps| ==> ps[k].CallPiece?
  {
    if ps == [] then None
    else if ps[|ps| - 1].callId.Some? then ps[|ps| - 1].callId else LastId(ps[..|ps| - 1])
  }

  function Names(ps: seq<Piece>): string
    requires forall k :: 0 <= k < |ps| ==> ps[k].CallPiece?
  {
    if ps == [] then "" else Names(ps[..|ps| - 1]) + ps[|ps| - 1].name
  }

  function Arguments(ps: seq<Piece>): string
    requires forall k :: 0 <= k < |ps| ==> ps[k].CallPiece?
  {
    if ps == [] then "" else Arguments(ps[..|ps| - 1]) + ps[|ps| - 1].arguments
  }

  /** A call is its newest id with all names and all arguments concatenated. */
  function CallOf(ps: seq<Piece>): Option<CallState>
    requires forall k :: 0 <= k < |ps| ==> ps[k].CallPiece?
  {
    if ps == [] then None else Some(CallState(LastId(ps), Names(ps), Arguments(ps)))
  }

  lemma CallOfSnoc(ps: seq<Piece>, p: Piece)
    requires p.CallPiece? && forall k :: 0 <= k < |ps| ==> ps[k].CallPiece?
    ensures CallOf(ps + [p]) == Some(WithPiece(CallOf(ps), p))
  {
    assert (ps + [p])[..|ps|] == ps;
  }

  /** Each field of the assembly is a function of its own pieces alone. */
  lemma {:induction false} ChannelsAreIndependent(ps: seq<Piece>)
    ensures var s := Fold(EMPTY, ps);
            && s.text == Texts(ps) && s.id == FirstId(ps) && s.model == FirstModel(ps) && s.reason == LastReason(ps)
            && forall i: nat :: At(s.calls, i) == CallOf(CallsFor(ps, i))
    decreases |ps|
  {
    hide WithPiece, CallOf;
    if ps == [] {
      assert CallOf([]) == None by { NoCall(); }
    } else {
      var front, p := ps[..|ps| - 1], ps[|ps| - 1];
      ChannelsAreIndependent(front);
      forall i: nat
        ensures CallsFor(ps, i) == if p.CallPiece? && p.index == i then CallsFor(front, i) + [p] else CallsFor(front, i)
      {
      }
      if p.CallPiece? {
        CallOfSnoc(CallsFor(front, p.index), p);
        var before := Fold(EMPTY, front);
        var calls := Extended(before.calls, p.index);
        assert At(calls, p.index) == At(before.calls, p.index) == CallOf(CallsFor(front, p.index));
        forall i: nat
          ensures At(Fold(EMPTY, ps).calls, i) == CallOf(CallsFor(ps, i))
        {
          if i != p.index {
            assert At(calls, i) == At(before.calls, i);
          }
        }
      }
    }
  }

  lemma NoCall()
    ensures CallOf([]) == None
  {
  }

  // ------------------------------------------------------------------- finish

  /** What the request fixed beforehand: its model, the names it sent, the id prefix and the JSON parser. */
  datatype Context = Context(requestModel: Value, names: map<string, string>, prefix: string, parse: string -> Option<Value>)

  function TrimEnd(s: string): string {
    if s != "" && Whitespace(s[|s| - 1]) then TrimEnd(s[..|s| - 1]) else s
  }

  function InputOf(c: Context, arguments: string): Option<Value> {
    var trimmed := TrimEnd(TrimStart(arguments));
    if trimmed == "" then Some(Obj([])) else c.parse(trimmed)
  }

  function OriginalName(c: Context, name: string): string {
    if name in c.names then c.names[name] else name
  }

  function CallBlock(c: Context, index: nat, call: CallState, input: Value): Value {
    Obj([Field("type", Str("tool_use")),
         Field("id", Str(if call.id.Some? then call.id.value else c.prefix + "_" + NatText(index))),
         Field("name", Str(OriginalName(c, call.name))),
         Field("input", input)])
  }

  /** The tool-use blocks in index order; arguments that do not parse refuse the stream. */
  function CallBlocks(c: Context, calls: Calls): Option<seq<Value>> {
    if calls == [] then Some([])
    else
      var last := |calls| - 1;
      match CallBlocks(c, calls[..last])
      case None => None
      case Some(blocks) =>
        if calls[last].None? then Some(blocks)
        else
          match InputOf(c, calls[last].value.arguments)
          case None => None
          case Some(input) => Some(blocks + [CallBlock(c, last, calls[last].value, input)])
  }

  function StopReason(reason: string, usesTools: bool): string {
    match reason
    case "tool_calls" => "tool_use"
    case "function_call" => "tool_use"
    case "stop" => if usesTools then "tool_use" else "end_turn"
    case "length" => "max_tokens"
    case "content_filter" => "refusal"
    case other => other
  }

  function Finished(c: Context, s: Assembly, sawDone: bool): Option<Value> {
    if !sawDone then None
    else
      match CallBlocks(c, s.calls)
      case None => None
      case Some(blocks) =>
        if s.reason.None? then None
        else
          var texts := if s.text != "" then [TextBlock(s.text)] else [];
          Some(Obj([
            Field("id", Str(if s.id.Some? then s.id.value else "chatcmpl_openai_compatible")),
            Field("type", Str("message")),
            Field("role", Str("assistant")),
            Field("model", if s.model.Some? then Str(s.model.value) else c.requestModel),
            Field("content", Arr(texts + blocks)),
            Field("stop_reason", Str(StopReason(s.reason.value, blocks != [])))]))
  }

  // ------------------------------------------------ what a finished message says

  /** Empty arguments stand for no input; all others have to parse. */
  ghost predicate Parses(c: Context, arguments: string, input: Value) {
    var trimmed := TrimEnd(TrimStart(arguments));
    if trimmed == "" then input == Obj([]) else c.parse(trimmed) == Some(input)
  }

  ghost predicate AllParse(c: Context, calls: Calls) {
    forall i :: 0 <= i < |calls| && calls[i].Some? ==> exists input :: Parses(c, calls[i].value.arguments, input)
  }

  /** The tool-use block of the call at an index: its id or a numbered one, the declared name, the parsed input. */
  ghost predicate IsBlock(c: Context, block: Value, index: nat, call: CallState) {
    Get(block, "type") == Str("tool_use")
    && (call.id.Some? ==> Get(block, "id") == Str(call.id.value))
    && (call.id.None? ==> Get(block, "id") == Str(c.prefix + "_" + NatText(index)))
    && (call.name in c.names ==> Get(block, "name") == Str(c.names[call.name]))
    && (call.name !in c.names ==> Get(block, "name") == Str(call.name))
    && Parses(c, call.arguments, Get(block, "input"))
  }

  /** How the provider's finish reason is reported to the runner. */
  ghost predicate IsStop(reason: string, anyCall: bool, stop: Value) {
    && stop.Str?
    && (stop.text == "tool_use" <==>
          reason == "tool_calls" || reason == "function_call" || reason == "tool_use" || (reason == "stop" && anyCall))
    && (reason == "stop" && !anyCall ==> stop.text == "end_turn")
    && (reason == "length" ==> stop.text == "max_tokens")
    && (reason == "content_filter" ==> stop.text == "refusal")
    && (reason !in {"tool_calls", "function_call", "stop", "length", "content_filter"} ==> stop.text == reason)
  }

  /** The text first, when there is any, and then one block for each call in index order. */
  ghost predicate IsContent(c: Context, s: Assembly, items: seq<Value>) {
    var first := if s.text == "" then 0 else 1;
    var indexes := Filled(s.calls);
    && |items| == first + |indexes|
    && (s.text != "" ==> Get(items[0], "type") == Str("text") && Get(items[0], "text") == Str(s.text))
    && forall k :: 0 <= k < |indexes| ==> IsBlock(c, items[first + k], indexes[k], s.calls[indexes[k]].value)
  }

  ghost predicate IsMessage(c: Context, s: Assembly, message: Value) {
    && s.reason.Some? && IsStop(s.reason.value, Filled(s.calls) != [], Get(message, "stop_reason"))
    && Get(message, "content").Arr? && IsContent(c, s, Get(message, "content").items)
    && Get(message, "type") == Str("message") && Get(message, "role") == Str("assistant")
    && (s.id.Some? ==> Get(message, "id") == Str(s.id.value))
    && (s.id.None? ==> Get(message, "id") == Str("chatcmpl_openai_compatible"))
    && Get(message, "model") == if s.model.Some? then Str(s.model.value) else c.requestModel
  }

  lemma {:induction false} BlocksFit(c: Context, calls: Calls)
    ensures CallBlocks(c, calls).Some? <==> AllParse(c, calls)
    ensures CallBlocks(c, calls).Some? ==>
              var blocks, indexes := CallBlocks(c, calls).value, Filled(calls);
              |blocks| == |indexes| && forall k :: 0 <= k < |blocks| ==> IsBlock(c, blocks[k], indexes[k], calls[indexes[k]].value)
    decreases |calls|
  {
    hide IsBlock, Parses, InputOf, CallBlock;
    if calls != [] {
      var last := |calls| - 1;
      BlocksFit(c, calls[..last]);
      if calls[last].Some? {
        BlockFits(c, last, calls[last].value);
      }
      if AllParse(c, calls) {
        assert forall i :: 0 <= i < last ==> calls[..last][i] == calls[i];
        assert AllParse(c, calls[..last]);
      }
    }
  }

  /** A member whose key occurs once is found under it. */
  lemma GetAt(v: Value, i: nat)
    requires v.Obj? && i < |v.fields| && forall j :: 0 <= j < |v.fields| && j != i ==> v.fields[j].key != v.fields[i].key
    ensures Get(v, v.fields[i].key) == v.fields[i].value
  {
    hide Lookup;
    assert v.fields[i].key == v.fields[i].key;
  }

  lemma BlockFits(c: Context, index: nat, call: CallState)
    ensures InputOf(c, call.arguments).Some? <==> exists input :: Parses(c, call.arguments, input)
    ensures InputOf(c, call.arguments).Some? ==> IsBlock(c, CallBlock(c, index, call, InputOf(c, call.arguments).value), index, call)
  {
    hide TrimStart, TrimEnd, Get;
    if InputOf(c, call.arguments).Some? {
      var block := CallBlock(c, index, call, InputOf(c, call.arguments).value);
      GetAt(block, 0);
      GetAt(block, 1);
      GetAt(block, 2);
      GetAt(block, 3);
      assert Parses(c, call.arguments, InputOf(c, call.arguments).value);
    }
  }

  function TextBlock(text: string): Value {
    Obj([Field("type", Str("text")), Field("text", Str(text))])
  }

  lemma TextBlockMembers(text: string)
    ensures Get(TextBlock(text), "type") == Str("text") && Get(TextBlock(text), "text") == Str(text)
  {
    hide Get;
    GetAt(TextBlock(text), 0);
    GetAt(TextBlock(text), 1);
  }

  lemma ContentFits(c: Context, s: Assembly, texts: seq<Value>)
    requires CallBlocks(c, s.calls).Some?
    requires texts == if s.text != "" then [TextBlock(s.text)] else []
    ensures IsContent(c, s, texts + CallBlocks(c, s.calls).value)
    ensures Filled(s.calls) != [] <==> CallBlocks(c, s.calls).value != []
  {
    hide CallBlocks, AllParse, IsBlock, Filled, Get, TextBlock;
    BlocksFit(c, s.calls);
    TextBlockMembers(s.text);
    var blocks := CallBlocks(c, s.calls).value;
    forall k | 0 <= k < |blocks|
      ensures (texts + blocks)[|texts| + k] == blocks[k]
    {
    }
  }

  lemma FinishedIsMessage(c: Context, s: Assembly, sawDone: bool)
    ensures Finished(c, s, sawDone).Some? <==> sawDone && s.reason.Some? && AllParse(c, s.calls)
    ensures Finished(c, s, sawDone).Some? ==> IsMessage(c, s, Finished(c, s, sawDone).value)
  {
    hide CallBlocks, AllParse, IsContent, Filled, StopReason, IsStop, Get;
    BlocksFit(c, s.calls);
    if Finished(c, s, sawDone).Some? {
      var texts := if s.text != "" then [TextBlock(s.text)] else [];
      ContentFits(c, s, texts);
      StopFits(s.reason.value, CallBlocks(c, s.calls).value != []);
      MembersOf(Finished(c, s, sawDone).value);
    }
  }

  lemma MembersOf(message: Value)
    requires message.Obj? && |message.fields| == 6
    requires message.fields[0].key == "id" && message.fields[1].key == "type" && message.fields[2].key == "role"
    requires message.fields[3].key == "model" && message.fields[4].key == "content" && message.fields[5].key == "stop_reason"
    ensures Get(message, "id") == message.fields[0].value && Get(message, "type") == message.fields[1].value
    ensures Get(message, "role") == message.fields[2].value && Get(message, "model") == message.fields[3].value
    ensures Get(message, "content") == message.fields[4].value && Get(message, "stop_reason") == message.fields[5].value
  {
    hide Get;
    GetAt(message, 0);
    GetAt(message, 1);
    GetAt(message, 2);
    GetAt(message, 3);
    GetAt(message, 4);
    GetAt(message, 5);
  }

  lemma StopFits(reason: string, anyCall: bool)
    ensures IsStop(reason, anyCall, Str(StopReason(reason, anyCall)))
  {
  }

  lemma {:induction false} BlocksOfSlots(c: Context, a: Calls, b: Calls)
    requires forall k: nat :: At(a, k) == At(b, k)
    ensures CallBlocks(c, a) == CallBlocks(c, b)
    decreases |a| + |b|
  {
    hide InputOf, CallBlock;
    if |a| > |b| {
      var last := |a| - 1;
      assert At(a, last) == At(b, last) == None;
      forall k: nat ensures At(a[..last], k) == At(b, k) { assert At(a, k) == At(b, k); }
      BlocksOfSlots(c, a[..last], b);
    } else if |b| > |a| {
      var last := |b| - 1;
      assert At(a, last) == At(b, last) == None;
      forall k: nat ensures At(a, k) == At(b[..last], k) { assert At(a, k) == At(b, k); }
      BlocksOfSlots(c, a, b[..last]);
    } else {
      forall k | 0 <= k < |a| ensures a[k] == b[k] { assert At(a, k) == At(b, k); }
      assert a == b;
    }
  }

  /** Two streams that agree on the text, on the head, on the reason and on each call by itself. */
  ghost predicate SameChannels(ps: seq<Piece>, qs: seq<Piece>) {
    Texts(ps) == Texts(qs) && FirstId(ps) == FirstId(qs) && FirstModel(ps) == FirstModel(qs) && LastReason(ps) == LastReason(qs)
    && forall i: nat :: CallOf(CallsFor(ps, i)) == CallOf(CallsFor(qs, i))
  }

  /** The finished message does not depend on how text and calls were interleaved or cut into chunks. */
  lemma InterleavingIsIrrelevant(c: Context, ps: seq<Piece>, qs: seq<Piece>, sawDone: bool)
    requires SameChannels(ps, qs)
    ensures Finished(c, Fold(EMPTY, ps), sawDone) == Finished(c, Fold(EMPTY, qs), sawDone)
  {
    hide Fold, CallBlocks, CallsFor, CallOf, Texts, FirstId, FirstModel, LastReason;
    ChannelsAreIndependent(ps);
    ChannelsAreIndependent(qs);
    var s, t := Fold(EMPTY, ps), Fold(EMPTY, qs);
    forall k: nat
      ensures At(s.calls, k) == At(t.calls, k)
    {
      assert At(s.calls, k) == CallOf(CallsFor(ps, k));
    }
    BlocksOfSlots(c, s.calls, t.calls);
  }

  // --------------------------------------------------------- the whole stream

  predicate IsDone(e: Sse.SseEvent) {
    TrimEnd(TrimStart(e.data)) == "[DONE]"
  }

  predicate SawDone(events: seq<Sse.SseEvent>) {
    exists i :: 0 <= i < |events| && IsDone(events[i])
  }

  /** The chunk of one event: its data in JSON, unless it reports an error. */
  function ChunkOf(c: Context, e: Sse.SseEvent): Option<Value> {
    match c.parse(e.data)
    case None => None
    case Some(chunk) => if e.event == "error" || (chunk.Obj? && Lookup(chunk.fields, "error").Some?) then None else Some(chunk)
  }

  /** The chunks of a stream, unless one is refused or comes after the end. */
  function ChunksOf(c: Context, events: seq<Sse.SseEvent>): Option<seq<Value>> {
    if events == [] then Some([])
    else
      var front, last := events[..|events| - 1], events[|events| - 1];
      match ChunksOf(c, front)
      case None => None
      case Some(chunks) =>
        if IsDone(last) then Some(chunks)
        else if SawDone(front) then None
        else
          match ChunkOf(c, last)
          case None => None
          case Some(chunk) => Some(chunks + [chunk])
  }

  function AllPieces(chunks: seq<Value>): seq<Piece> {
    if chunks == [] then [] else AllPieces(chunks[..|chunks| - 1]) + Pieces(chunks[|chunks| - 1])
  }

  function StreamMessage(c: Context, events: seq<Sse.SseEvent>): Option<Value> {
    match ChunksOf(c, events)
    case None => None
    case Some(chunks) => Finished(c, Fold(EMPTY, AllPieces(chunks)), SawDone(events))
  }

  /** The first n events are chunks and all others mark the end. */
  ghost predicate EndsAfter(c: Context, events: seq<Sse.SseEvent>, n: nat) {
    n <= |events|
    && (forall i :: 0 <= i < n ==> !IsDone(events[i]) && ChunkOf(c, events[i]).Some?)
    && (forall i :: n <= i < |events| ==> IsDone(events[i]))
  }

  /** A stream is read exactly when it is a run of chunks followed only by end marks, and then in order. */
  lemma {:induction false} ChunksBeforeDone(c: Context, events: seq<Sse.SseEvent>)
    ensures match ChunksOf(c, events)
            case None => forall n :: !EndsAfter(c, events, n)
            case Some(chunks) =>
              && EndsAfter(c, events, |chunks|) && (SawDone(events) <==> |chunks| < |events|)
              && forall i :: 0 <= i < |chunks| ==> ChunkOf(c, events[i]) == Some(chunks[i])
    decreases |events|
  {
    hide IsDone, ChunkOf;
    if events != [] {
      var front, last := events[..|events| - 1], events[|events| - 1];
      ChunksBeforeDone(c, front);
      if ChunksOf(c, front).Some? {
        assert SawDone(events) <==> SawDone(front) || IsDone(last);
      }
      if n: nat :| EndsAfter(c, events, n) {
        assert EndsAfter(c, front, if n == |events| then |front| else n);
      }
    }
  }

  /** Reads the events one by one: chunks go to the assembler, and nothing may follow the end mark. */
  method ReadStream(c: Context, events: seq<Sse.SseEvent>) returns (r: Option<Value>)
    ensures r == StreamMessage(c, events)
    ensures r.Some? <==>
              && ChunksOf(c, events).Some? && SawDone(events)
              && var s := Fold(EMPTY, AllPieces(ChunksOf(c, events).value)); s.reason.Some? && AllParse(c, s.calls)
    ensures r.Some? ==> IsMessage(c, Fold(EMPTY, AllPieces(ChunksOf(c, events).value)), r.value)
  {
    hide IsDone, ChunkOf, Pieces, Finished, Fold, IsMessage, AllParse;
    var assembler := new OpenAiStreamAssembler();
    var sawDone := false;
    ghost var chunks: seq<Value> := [];
    FoldNothing(EMPTY);
    for i := 0 to |events|
      invariant ChunksOf(c, events[..i]) == Some(chunks)
      invariant sawDone == SawDone(events[..i])
      invariant assembler.State() == Fold(EMPTY, AllPieces(chunks))
    {
      assert events[..i + 1][..i] == events[..i];
      if IsDone(events[i]) {
        assert events[..i + 1][i] == events[i];
        sawDone := true;
      } else {
        if sawDone {
          RefusedStreamStays(c, events, i + 1);
          return None;
        }
        var chunk := ChunkOf(c, events[i]);
        if chunk.None? {
          RefusedStreamStays(c, events, i + 1);
          return None;
        }
        assembler.Apply(chunk.value);
        FoldThen(EMPTY, AllPieces(chunks), Pieces(chunk.value));
        assert (chunks + [chunk.value])[..|chunks|] == chunks;
        chunks := chunks + [chunk.value];
      }
    }
    assert events[..|events|] == events;
    r := FinishStream(c, Assembly(assembler.id, assembler.model, assembler.text, assembler.toolCalls, assembler.finishReason), sawDone);
  }

  lemma {:induction false} RefusedStreamStays(c: Context, events: seq<Sse.SseEvent>, k: nat)
    requires k <= |events| && ChunksOf(c, events[..k]).None?
    ensures ChunksOf(c, events).None?
    decreases |events| - k
  {
    hide IsDone, ChunkOf;
    if k == |events| {
      assert events[..k] == events;
    } else {
      assert events[..k + 1][..k] == events[..k];
      RefusedStreamStays(c, events, k + 1);
    }
  }

  /** Streams whose channels agree give the same message, however their text and arguments were cut into events. */
  lemma StreamsAgree(c: Context, a: seq<Sse.SseEvent>, b: seq<Sse.SseEvent>)
    requires ChunksOf(c, a).Some? && ChunksOf(c, b).Some? && (SawDone(a) <==> SawDone(b))
    requires SameChannels(AllPieces(ChunksOf(c, a).value), AllPieces(ChunksOf(c, b).value))
    ensures StreamMessage(c, a) == StreamMessage(c, b)
  {
    hide ChunksOf, AllPieces, SameChannels, Finished, Fold;
    InterleavingIsIrrelevant(c, AllPieces(ChunksOf(c, a).value), AllPieces(ChunksOf(c, b).value), SawDone(a));
  }

  // ------------------------------------------------------ chunks as they are sent

  function DeltaChunk(delta: Value): Value {
    Obj([Field("choices", Arr([Obj([Field("delta", delta)])]))])
  }

  /** The smallest chunk in which a provider sends one contribution. */
  function ChunkFor(p: Piece): Value {
    match p
    case IdPiece(id) => Obj([Field("id", Str(id))])
    case ModelPiece(model) => Obj([Field("model", Str(model))])
    case TextPiece(text) => DeltaChunk(Obj([Field("content", Str(text))]))
    case CallPiece(index, callId, name, arguments) =>
      var call := [Field("index", Int(index)), Field("function", Obj([Field("name", Str(name)), Field("arguments", Str(arguments))]))];
      DeltaChunk(Obj([Field("tool_calls", Arr([Obj(call + if callId.Some? then [Field("id", Str(callId.value))] else [])]))]))
    case ReasonPiece(reason) => Obj([Field("choices", Arr([Obj([Field("finish_reason", Str(reason))])]))])
  }

  /** Ids and reasons are sent only when they are not empty. */
  predicate Sendable(p: Piece) {
    (p.ReasonPiece? ==> p.reason != "") && (p.CallPiece? && p.callId.Some? ==> p.callId.value != "")
  }

  lemma GetOne(key: string, v: Value, other: string)
    ensures Get(Obj([Field(key, v)]), other) == if other == key then v else Null
  {
  }

  lemma OneChoice(choice: Value)
    ensures ChoicesPieces([choice]) == ChoicePieces(choice)
  {
    hide ChoicePieces;
    assert [choice][..0] == [];
    assert ChoicesPieces([]) == [];
  }

  lemma OneCall(call: Value)
    ensures CallPieces([call]) == [CallPieceOf(call)]
  {
    hide CallPieceOf;
    assert [call][..0] == [];
    assert CallPieces([]) == [];
  }

  lemma DeltaIsRead(delta: Value)
    ensures Pieces(DeltaChunk(delta))
            == TextPieces(delta) + CallPieces(Items(Get(delta, "tool_calls"))) + FunctionCallPieces(Get(delta, "function_call"))
  {
    hide Get, TextPieces, CallPieces, FunctionCallPieces;
    var choice := Obj([Field("delta", delta)]);
    GetOne("choices", Arr([choice]), "choices");
    GetOne("choices", Arr([choice]), "id");
    GetOne("choices", Arr([choice]), "model");
    GetOne("delta", delta, "delta");
    GetOne("delta", delta, "finish_reason");
    OneChoice(choice);
  }

  lemma CallIsRead(index: nat, callId: Option<string>, name: string, arguments: string)
    requires callId.Some? ==> callId.value != ""
    ensures var call := [Field("index", Int(index)), Field("function", Obj([Field("name", Str(name)), Field("arguments", Str(arguments))]))];
            CallPieceOf(Obj(call + if callId.Some? then [Field("id", Str(callId.value))] else [])) == CallPiece(index, callId, name, arguments)
  {
    hide Lookup;
    var fn := Obj([Field("name", Str(name)), Field("arguments", Str(arguments))]);
    var call := Obj([Field("index", Int(index)), Field("function", fn)] + if callId.Some? then [Field("id", Str(callId.value))] else []);
    GetAt(fn, 0);
    GetAt(fn, 1);
    GetAt(call, 0);
    GetAt(call, 1);
    if callId.Some? {
      GetAt(call, 2);
    }
  }

  /** What a provider sends as one contribution is read as exactly that contribution. */
  lemma ChunkIsRead(p: Piece)
    requires Sendable(p)
    ensures Pieces(ChunkFor(p)) == [p]
  {
    hide Get, CallPieces, CallPieceOf, Pieces;
    match p
    case IdPiece(id) => HeadIsRead("id", id);
    case ModelPiece(model) => HeadIsRead("model", model);
    case TextPiece(text) =>
      var delta := Obj([Field("content", Str(text))]);
      DeltaIsRead(delta);
      GetOne("content", Str(text), "content");
      GetOne("content", Str(text), "tool_calls");
      GetOne("content", Str(text), "function_call");
      assert CallPieces([]) == [] by { NoCalls(); }
    case CallPiece(index, callId, name, arguments) =>
      var call := Obj([Field("index", Int(index)), Field("function", Obj([Field("name", Str(name)), Field("arguments", Str(arguments))]))]
                      + if callId.Some? then [Field("id", Str(callId.value))] else []);
      DeltaIsRead(Obj([Field("tool_calls", Arr([call]))]));
      GetOne("tool_calls", Arr([call]), "content");
      GetOne("tool_calls", Arr([call]), "tool_calls");
      GetOne("tool_calls", Arr([call]), "function_call");
      OneCall(call);
      CallIsRead(index, callId, name, arguments);
    case ReasonPiece(reason) => ReasonIsRead(reason);
  }

  /** The older form of a call is a piece of the first call. */
  lemma LegacyCallIsRead(name: string, arguments: string)
    ensures var call := Obj([Field("name", Str(name)), Field("arguments", Str(arguments))]);
            Pieces(DeltaChunk(Obj([Field("function_call", call)]))) == [CallPiece(0, None, name, arguments)]
  {
    hide Get, Pieces;
    var call := Obj([Field("name", Str(name)), Field("arguments", Str(arguments))]);
    DeltaIsRead(Obj([Field("function_call", call)]));
    GetOne("function_call", call, "content");
    GetOne("function_call", call, "tool_calls");
    GetOne("function_call", call, "function_call");
    NoCalls();
    GetAt(call, 0);
    GetAt(call, 1);
  }

  lemma NoCalls()
    ensures CallPieces([]) == []
  {
  }

  lemma HeadIsRead(key: string, text: string)
    requires key == "id" || key == "model"
    ensures Pieces(Obj([Field(key, Str(text))])) == [if key == "id" then IdPiece(text) else ModelPiece(text)]
  {
    hide Get;
    GetOne(key, Str(text), "id");
    GetOne(key, Str(text), "model");
    GetOne(key, Str(text), "choices");
    assert ChoicesPieces([]) == [];
  }

  lemma ReasonIsRead(reason: string)
    requires reason != ""
    ensures Pieces(Obj([Field("choices", Arr([Obj([Field("finish_reason", Str(reason))])]))])) == [ReasonPiece(reason)]
  {
    hide Get;
    var choice := Obj([Field("finish_reason", Str(reason))]);
    GetOne("choices", Arr([choice]), "choices");
    GetOne("choices", Arr([choice]), "id");
    GetOne("choices", Arr([choice]), "model");
    GetOne("finish_reason", Str(reason), "finish_reason");
    GetOne("finish_reason", Str(reason), "delta");
    NullHasNothing();
    OneChoice(choice);
    assert CallPieces([]) == [];
  }

  lemma NullHasNothing()
    ensures forall key :: Get(Null, key) == Null
  {
  }

  function ChunksFor(ps: seq<Piece>): (r: seq<Value>)
    ensures |r| == |ps|
  {
    seq(|ps|, i requires 0 <= i < |ps| => ChunkFor(ps[i]))
  }

  /** Sent one by one, the contributions come back in order. */
  lemma {:induction false} ChunksAreRead(ps: seq<Piece>)
    requires forall i :: 0 <= i < |ps| ==> Sendable(ps[i])
    ensures AllPieces(ChunksFor(ps)) == ps
    decreases |ps|
  {
    hide Pieces, ChunkFor, Sendable;
    if ps != [] {
      var last := |ps| - 1;
      ChunksAreRead(ps[..last]);
      ChunkIsRead(ps[last]);
      assert ChunksFor(ps)[..last] == ChunksFor(ps[..last]);
      assert ps[..last] + [ps[last]] == ps;
    }
  }
}
