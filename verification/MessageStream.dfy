// Assembly of a streamed message from its events.
module MessageStream {
  import opened Basics
  import opened Json
  import opened Slots

  /** Parsing of accumulated JSON text, left abstract. */
  type Parser = string -> Option<Value>

  // ------------------------------------------------------------ loose objects

  /** `value[key]`: null when there is no such member. */
  function Get(v: Value, key: string): Value {
    if v.Obj? then
      match Lookup(v.fields, key)
      case Some(x) => x
      case None => Null
    else Null
  }

  function SetField(fields: seq<Field>, key: string, x: Value): seq<Field> {
    if fields == [] then [Field(key, x)]
    else if fields[0].key == key then [Field(key, x)] + fields[1..]
    else [fields[0]] + SetField(fields[1..], key, x)
  }

  /** `value[key] = x`: null becomes an object; any other non-object is a panic. */
  function Put(v: Value, key: string, x: Value): Option<Value> {
    match v
    case Null => Some(Obj([Field(key, x)]))
    case Obj(fields) => Some(Obj(SetField(fields, key, x)))
    case _ => None
  }

  function TextOr(v: Value): string {
    if v.Str? then v.text else ""
  }

  function IndexOf(v: Value): Option<nat> {
    if v.Int? && v.number >= 0 then Some(v.number) else None
  }

  lemma {:induction false} LookupSet(fields: seq<Field>, key: string, x: Value, other: string)
    ensures Lookup(SetField(fields, key, x), other) == if other == key then Some(x) else Lookup(fields, other)
  {
    if fields != [] && fields[0].key != key {
      LookupSet(fields[1..], key, x, other);
    }
  }

  lemma GetAfterPut(v: Value, key: string, x: Value, other: string)
    requires Put(v, key, x).Some?
    ensures Put(v, key, x).value.Obj? && Get(Put(v, key, x).value, other) == if other == key then x else Get(v, other)
  {
    if v.Obj? {
      LookupSet(v.fields, key, x, other);
    }
  }

  // -------------------------------------------------------------------- events

  datatype Delta =
    | TextDelta(text: string)
    | InputJsonDelta(part: string)
    | ThinkingDelta(thinking: string)
    | SignatureDelta(signature: Option<string>)
    | OtherDelta

  datatype StreamEvent =
    | MessageStart(message: Value)
    | BlockStart(index: Option<nat>, block: Value)
    | BlockDelta(index: Option<nat>, delta: Delta)
    | BlockStop(index: Option<nat>)
    | MessageDelta(stopReason: Option<Value>, stopSequence: Option<Value>, usage: Option<Value>)
    | MessageStop
    | StreamError
    | Ignored

  function Member(v: Value, key: string): Option<Value> {
    if v.Obj? then Lookup(v.fields, key) else None
  }

  function DeltaOf(delta: Value): Delta {
    match TextOr(Get(delta, "type"))
    case "text_delta" => TextDelta(TextOr(Get(delta, "text")))
    case "input_json_delta" => InputJsonDelta(TextOr(Get(delta, "partial_json")))
    case "thinking_delta" => ThinkingDelta(TextOr(Get(delta, "thinking")))
    case "signature_delta" =>
      SignatureDelta(if Get(delta, "signature").Str? then Some(Get(delta, "signature").text) else None)
    case _ => OtherDelta
  }

  function EventOf(event: Value): StreamEvent {
    match TextOr(Get(event, "type"))
    case "message_start" => MessageStart(Get(event, "message"))
    case "content_block_start" => BlockStart(IndexOf(Get(event, "index")), Get(event, "content_block"))
    case "content_block_delta" => BlockDelta(IndexOf(Get(event, "index")), DeltaOf(Get(event, "delta")))
    case "content_block_stop" => BlockStop(IndexOf(Get(event, "index")))
    case "message_delta" =>
      MessageDelta(Member(Get(event, "delta"), "stop_reason"), Member(Get(event, "delta"), "stop_sequence"), Member(event, "usage"))
    case "message_stop" => MessageStop
    case "error" => StreamError
    case _ => Ignored
  }

  // -------------------------------------------------------------------- blocks

  datatype BlockState = BlockState(value: Value, partialJson: string)

  function WithValue(b: BlockState, v: Option<Value>): Option<BlockState> {
    if v.Some? then Some(b.(value := v.value)) else None
  }

  function WithDelta(b: BlockState, delta: Delta): Option<BlockState> {
    match delta
    case TextDelta(text) => WithValue(b, Put(b.value, "text", Str(TextOr(Get(b.value, "text")) + text)))
    case InputJsonDelta(part) => Some(b.(partialJson := b.partialJson + part))
    case ThinkingDelta(thinking) => WithValue(b, Put(b.value, "thinking", Str(TextOr(Get(b.value, "thinking")) + thinking)))
    case SignatureDelta(Some(signature)) => WithValue(b, Put(b.value, "signature", Str(signature)))
    case _ => Some(b)
  }

  /** A tool-use block takes its accumulated JSON as input when it stops. */
  function Stopped(parse: Parser, b: BlockState): Option<BlockState> {
    if Get(b.value, "type") == Str("tool_use") && b.partialJson != "" then
      match parse(b.partialJson)
      case None => None
      case Some(input) => WithValue(b, Put(b.value, "input", input))
    else Some(b)
  }

  function Wrapped(b: Option<BlockState>): Option<Option<BlockState>> {
    if b.Some? then Some(b) else None
  }

  /** One event of one block; the outer `None` is an error. */
  function BlockStep(parse: Parser, b: Option<BlockState>, e: StreamEvent): Option<Option<BlockState>> {
    match e
    case BlockStart(_, block) => Some(Some(BlockState(block, "")))
    case BlockDelta(_, delta) =>
      if b.None? then None else Wrapped(WithDelta(b.value, delta))
    case BlockStop(_) =>
      if b.None? then Some(None) else Wrapped(Stopped(parse, b.value))
    case _ => Some(b)
  }

  // ------------------------------------------------------------------ messages

  datatype MessageState = MessageState(message: Option<Value>, stopped: bool)

  function MergeFields(existing: seq<Field>, update: seq<Field>): seq<Field>
    decreases |update|
  {
    if update == [] then existing else MergeFields(SetField(existing, update[0].key, update[0].value), update[1..])
  }

  function MergeObject(target: Value, key: string, update: Value): Option<Value> {
    var existing := if Get(target, key).Obj? then Get(target, key).fields else [];
    Put(target, key, Obj(if update.Obj? then MergeFields(existing, update.fields) else existing))
  }

  function PutOption(v: Option<Value>, key: string, x: Option<Value>): Option<Value> {
    if v.None? then None else if x.None? then v else Put(v.value, key, x.value)
  }

  const NEW_MESSAGE := Obj([Field("type", Str("message")), Field("role", Str("assistant")), Field("content", Arr([]))])

  function MessageStep(m: MessageState, e: StreamEvent): Option<MessageState> {
    match e
    case MessageStart(message) => Some(m.(message := Some(message)))
    case MessageDelta(stopReason, stopSequence, usage) =>
      var start := if m.message.Some? then m.message.value else NEW_MESSAGE;
      var v := PutOption(PutOption(Some(start), "stop_reason", stopReason), "stop_sequence", stopSequence);
      var v' := if v.Some? && usage.Some? then MergeObject(v.value, "usage", usage.value) else v;
      if v'.Some? then Some(m.(message := v')) else None
    case MessageStop => Some(m.(stopped := true))
    case _ => Some(m)
  }

  // ------------------------------------------------------------ the assembler

  type Content = seq<Option<BlockState>>

  datatype Assembly = Assembly(message: MessageState, content: Content)

  const EMPTY := Assembly(MessageState(None, false), [])

  predicate IsBlockEvent(e: StreamEvent) {
    e.BlockStart? || e.BlockDelta? || e.BlockStop?
  }

  predicate Broken(e: StreamEvent) {
    e.StreamError? || (IsBlockEvent(e) && e.index.None?)
  }

  function Applied(parse: Parser, s: Assembly, e: StreamEvent): Option<Assembly> {
    if Broken(e) then None
    else if IsBlockEvent(e) then
      var i := e.index.value;
      var content := if e.BlockStop? then s.content else Extended(s.content, i);
      match BlockStep(parse, At(content, i), e)
      case None => None
      case Some(b) => Some(s.(content := if i < |content| then content[i := b] else content))
    else
      match MessageStep(s.message, e)
      case None => None
      case Some(m) => Some(s.(message := m))
  }

  function AppliedAll(parse: Parser, es: seq<StreamEvent>): Option<Assembly> {
    if es == [] then Some(EMPTY)
    else
      match AppliedAll(parse, es[..|es| - 1])
      case None => None
      case Some(s) => Applied(parse, s, es[|es| - 1])
  }

  function Values(content: Content): seq<Value> {
    if content == [] then []
    else Values(content[..|content| - 1]) + match content[|content| - 1] case Some(b) => [b.value] case None => []
  }

  /** The finished message: started, stopped, and with its blocks in index order. */
  function Finished(s: Assembly): Option<Value> {
    if s.message.message.None? || !s.message.stopped then None
    else Put(s.message.message.value, "content", Arr(Values(s.content)))
  }

  class MessageStreamAssembler {
    var message: Option<Value>
    var content: Content
    var sawMessageStop: bool

    constructor ()
      ensures State() == EMPTY
    {
      message, content, sawMessageStop := None, [], false;
    }

    ghost function State(): Assembly
      reads this
    {
      Assembly(MessageState(message, sawMessageStop), content)
    }

    method Apply(parse: Parser, event: Value) returns (ok: bool)
      modifies this
      ensures match Applied(parse, old(State()), EventOf(event))
              case None => !ok
              case Some(s) => ok && State() == s
    {
      hide EventOf, WithDelta, Stopped, Extended;
      var e := EventOf(event);
      ok := true;
      match e
      case MessageStart(started) => message := Some(started);
      case BlockStart(index, block) =>
        if index.None? { return false; }
        EnsureContentIndex(index.value);
        content := content[index.value := Some(BlockState(block, ""))];
      case BlockDelta(index, delta) =>
        if index.None? { return false; }
        EnsureContentIndex(index.value);
        if content[index.value].None? { return false; }
        var block := WithDelta(content[index.value].value, delta);
        if block.None? { return false; }
        content := content[index.value := block];
      case BlockStop(index) =>
        if index.None? { return false; }
        if index.value < |content| && content[index.value].Some? {
          var block := Stopped(parse, content[index.value].value);
          if block.None? { return false; }
          content := content[index.value := block];
        }
      case MessageDelta(_, _, _) =>
        var next := MessageStep(MessageState(message, sawMessageStop), e);
        if next.None? { return false; }
        message := next.value.message;
      case MessageStop => sawMessageStop := true;
      case StreamError => return false;
      case Ignored =>
    }

    method EnsureContentIndex(index: nat)
      modifies this`content
      ensures content == Extended(old(content), index)
    {
      ghost var start := content;
      while |content| <= index
        invariant Extended(content, index) == Extended(start, index)
        decreases index + 1 - |content|
      {
        content := content + [None];
      }
    }

    method Finish() returns (r: Option<Value>)
      ensures r == Finished(State())
    {
      if message.None? || !sawMessageStop {
        return None;
      }
      var values: seq<Value> := [];
      for i := 0 to |content|
        invariant values == Values(content[..i])
      {
        assert content[..i + 1][..i] == content[..i];
        if content[i].Some? {
          values := values + [content[i].value.value];
        }
      }
      assert content[..|content|] == content;
      return Put(message.value, "content", Arr(values));
    }
  }

  // -------------------------------------------------------------- one channel

  function BlockEvents(es: seq<StreamEvent>, i: nat): seq<StreamEvent> {
    if es == [] then []
    else
      var last := es[|es| - 1];
      BlockEvents(es[..|es| - 1], i) + if IsBlockEvent(last) && last.index == Some(i) then [last] else []
  }

  function MessageEvents(es: seq<StreamEvent>): seq<StreamEvent> {
    if es == [] then []
    else
      var last := es[|es| - 1];
      MessageEvents(es[..|es| - 1]) + if !IsBlockEvent(last) && !Broken(last) then [last] else []
  }

  /** One block assembled from its own events alone. */
  function BlockFold(parse: Parser, es: seq<StreamEvent>): Option<Option<BlockState>> {
    if es == [] then Some(None)
    else
      match BlockFold(parse, es[..|es| - 1])
      case None => None
      case Some(b) => BlockStep(parse, b, es[|es| - 1])
  }

  function MessageFold(es: seq<StreamEvent>): Option<MessageState> {
    if es == [] then Some(EMPTY.message)
    else
      match MessageFold(es[..|es| - 1])
      case None => None
      case Some(m) => MessageStep(m, es[|es| - 1])
  }

  predicate AnyBroken(es: seq<StreamEvent>) {
    exists k :: 0 <= k < |es| && Broken(es[k])
  }

  /** Every channel, assembled separately, succeeds. */
  ghost predicate AllFold(parse: Parser, es: seq<StreamEvent>) {
    !AnyBroken(es) && ChannelsFold(parse, es)
  }

  ghost predicate ChannelsFold(parse: Parser, es: seq<StreamEvent>) {
    MessageFold(MessageEvents(es)).Some? && forall i: nat :: BlockFold(parse, BlockEvents(es, i)).Some?
  }

  /** The assembly is the channels put side by side. */
  ghost predicate SideBySide(parse: Parser, es: seq<StreamEvent>, s: Assembly) {
    MessageFold(MessageEvents(es)) == Some(s.message)
    && forall i: nat :: BlockFold(parse, BlockEvents(es, i)) == Some(At(s.content, i))
  }

  lemma SnocMessage(es: seq<StreamEvent>, e: StreamEvent)
    ensures MessageFold(es + [e]) == match MessageFold(es) case None => None case Some(m) => MessageStep(m, e)
  {
    assert (es + [e])[..|es|] == es;
  }

  lemma SnocBlock(parse: Parser, es: seq<StreamEvent>, e: StreamEvent)
    ensures BlockFold(parse, es + [e]) == match BlockFold(parse, es) case None => None case Some(b) => BlockStep(parse, b, e)
  {
    assert (es + [e])[..|es|] == es;
  }

  /** Assembling the interleaved stream is assembling each channel by itself. */
  lemma {:induction false} ChannelsAreIndependent(parse: Parser, es: seq<StreamEvent>)
    ensures AppliedAll(parse, es).Some? <==> AllFold(parse, es)
    ensures AppliedAll(parse, es).Some? ==> SideBySide(parse, es, AppliedAll(parse, es).value)
    decreases |es|
  {
    hide BlockStep, MessageStep, Extended;
    if es != [] {
      var front, e := es[..|es| - 1], es[|es| - 1];
      ChannelsAreIndependent(parse, front);
      assert AnyBroken(es) <==> AnyBroken(front) || Broken(e) by {
        if AnyBroken(es) {
          var k :| 0 <= k < |es| && Broken(es[k]);
          if k < |front| {
            assert Broken(front[k]);
          }
        }
        if AnyBroken(front) {
          var k :| 0 <= k < |front| && Broken(front[k]);
          assert Broken(es[k]);
        }
      }
      if AppliedAll(parse, front).Some? && !Broken(e) {
        LastEvent(parse, front, e, AppliedAll(parse, front).value);
        assert front + [e] == es;
      } else if !Broken(e) && !AnyBroken(front) {
        EarlierFailure(parse, front, e);
        assert front + [e] == es;
      }
    }
  }

  lemma LastEvent(parse: Parser, front: seq<StreamEvent>, e: StreamEvent, s: Assembly)
    requires SideBySide(parse, front, s) && AllFold(parse, front) && !Broken(e)
    ensures var es := front + [e];
            && (Applied(parse, s, e).Some? <==> ChannelsFold(parse, es))
            && (Applied(parse, s, e).Some? ==> SideBySide(parse, es, Applied(parse, s, e).value))
  {
    hide Applied, SideBySide, AllFold, ChannelsFold;
    if IsBlockEvent(e) {
      LastBlockEvent(parse, front, e, s);
    } else {
      LastMessageEvent(parse, front, e, s);
    }
  }

  lemma EventsAfter(front: seq<StreamEvent>, e: StreamEvent, k: nat)
    ensures BlockEvents(front + [e], k)
            == if IsBlockEvent(e) && e.index == Some(k) then BlockEvents(front, k) + [e] else BlockEvents(front, k)
    ensures MessageEvents(front + [e]) == if !IsBlockEvent(e) && !Broken(e) then MessageEvents(front) + [e] else MessageEvents(front)
  {
    assert (front + [e])[..|front|] == front;
  }

  lemma LastMessageEvent(parse: Parser, front: seq<StreamEvent>, e: StreamEvent, s: Assembly)
    requires SideBySide(parse, front, s) && AllFold(parse, front) && !Broken(e) && !IsBlockEvent(e)
    ensures var es := front + [e];
            && (Applied(parse, s, e).Some? <==> ChannelsFold(parse, es))
            && (Applied(parse, s, e).Some? ==> SideBySide(parse, es, Applied(parse, s, e).value))
  {
    hide BlockStep, MessageStep, Extended, BlockEvents, MessageEvents, MessageFold, BlockFold, At, AnyBroken;
    var es := front + [e];
    EventsAfter(front, e, 0);
    SnocMessage(MessageEvents(front), e);
    forall k: nat
      ensures BlockEvents(es, k) == BlockEvents(front, k)
    {
      EventsAfter(front, e, k);
    }
  }

  lemma LastBlockEvent(parse: Parser, front: seq<StreamEvent>, e: StreamEvent, s: Assembly)
    requires SideBySide(parse, front, s) && AllFold(parse, front) && !Broken(e) && IsBlockEvent(e)
    ensures var es := front + [e];
            && (Applied(parse, s, e).Some? <==> ChannelsFold(parse, es))
            && (Applied(parse, s, e).Some? ==> SideBySide(parse, es, Applied(parse, s, e).value))
  {
    hide Applied, BlockStep, MessageStep, Extended, BlockEvents, MessageEvents, MessageFold, BlockFold, At, AnyBroken;
    var es := front + [e];
    var i := e.index.value;
    EventsAfter(front, e, i);
    SnocBlock(parse, BlockEvents(front, i), e);
    forall k: nat | k != i
      ensures BlockEvents(es, k) == BlockEvents(front, k)
    {
      EventsAfter(front, e, k);
    }
    StepApplies(parse, s, e);
    if Applied(parse, s, e).Some? {
      StepAt(parse, s, e);
    }
  }

  lemma StepApplies(parse: Parser, s: Assembly, e: StreamEvent)
    requires IsBlockEvent(e) && e.index.Some?
    ensures Applied(parse, s, e).Some? <==> BlockStep(parse, At(s.content, e.index.value), e).Some?
  {
    hide BlockStep;
  }

  /** A block event changes its own block and no other. */
  lemma StepAt(parse: Parser, s: Assembly, e: StreamEvent)
    requires IsBlockEvent(e) && e.index.Some? && Applied(parse, s, e).Some?
    ensures var s' := Applied(parse, s, e).value;
            && s'.message == s.message
            && BlockStep(parse, At(s.content, e.index.value), e) == Some(At(s'.content, e.index.value))
            && forall k: nat :: k != e.index.value ==> At(s'.content, k) == At(s.content, k)
  {
    hide Stopped, WithDelta;
  }

  lemma EarlierFailure(parse: Parser, front: seq<StreamEvent>, e: StreamEvent)
    requires !ChannelsFold(parse, front)
    ensures !ChannelsFold(parse, front + [e])
  {
    hide BlockStep, MessageStep;
    var es := front + [e];
    assert es[..|es| - 1] == front;
    if MessageFold(MessageEvents(front)).None? {
      SnocMessage(MessageEvents(front), e);
      assert MessageEvents(es) == MessageEvents(front) || MessageEvents(es) == MessageEvents(front) + [e];
    } else {
      var i: nat :| BlockFold(parse, BlockEvents(front, i)).None?;
      SnocBlock(parse, BlockEvents(front, i), e);
      assert BlockEvents(es, i) == BlockEvents(front, i) || BlockEvents(es, i) == BlockEvents(front, i) + [e];
      assert BlockFold(parse, BlockEvents(es, i)).None?;
    }
  }

  // ------------------------------------------------------------ interleaving

  /** The two streams have the same events in the same order within every block and at message level. */
  ghost predicate SameChannels(es: seq<StreamEvent>, fs: seq<StreamEvent>) {
    MessageEvents(es) == MessageEvents(fs) && (forall i: nat :: BlockEvents(es, i) == BlockEvents(fs, i))
    && (AnyBroken(es) <==> AnyBroken(fs))
  }

  function Outcome(parse: Parser, es: seq<StreamEvent>): Option<Value> {
    match AppliedAll(parse, es)
    case None => None
    case Some(s) => Finished(s)
  }

  lemma {:induction false} ValuesOfSlots(a: Content, b: Content)
    requires forall k: nat :: At(a, k) == At(b, k)
    ensures Values(a) == Values(b)
    decreases |a| + |b|
  {
    if |a| > |b| {
      var last := |a| - 1;
      assert At(a, last) == At(b, last) == None;
      forall k: nat ensures At(a[..last], k) == At(b, k) { assert At(a, k) == At(b, k); }
      ValuesOfSlots(a[..last], b);
    } else if |b| > |a| {
      var last := |b| - 1;
      assert At(a, last) == At(b, last) == None;
      forall k: nat ensures At(a, k) == At(b[..last], k) { assert At(a, k) == At(b, k); }
      ValuesOfSlots(a, b[..last]);
    } else {
      forall k | 0 <= k < |a| ensures a[k] == b[k] { assert At(a, k) == At(b, k); }
      assert a == b;
    }
  }

  /** The finished message does not depend on how the blocks' events were interleaved. */
  lemma InterleavingIsIrrelevant(parse: Parser, es: seq<StreamEvent>, fs: seq<StreamEvent>)
    requires SameChannels(es, fs)
    ensures Outcome(parse, es) == Outcome(parse, fs)
  {
    hide AppliedAll, MessageEvents, BlockEvents, MessageFold, BlockFold, Values, AnyBroken;
    ChannelsAreIndependent(parse, es);
    ChannelsAreIndependent(parse, fs);
    if AppliedAll(parse, es).Some? {
      var s, t := AppliedAll(parse, es).value, AppliedAll(parse, fs).value;
      forall k: nat
        ensures At(s.content, k) == At(t.content, k)
      {
        assert BlockEvents(es, k) == BlockEvents(fs, k);
        assert BlockFold(parse, BlockEvents(es, k)) == Some(At(s.content, k));
        assert BlockFold(parse, BlockEvents(fs, k)) == Some(At(t.content, k));
      }
      ValuesOfSlots(s.content, t.content);
    }
  }

  // ------------------------------------------------------------ accumulation

  function Texts(ds: seq<Delta>): string {
    if ds == [] then "" else Texts(ds[..|ds| - 1]) + if ds[|ds| - 1].TextDelta? then ds[|ds| - 1].text else ""
  }

  function Thoughts(ds: seq<Delta>): string {
    if ds == [] then "" else Thoughts(ds[..|ds| - 1]) + if ds[|ds| - 1].ThinkingDelta? then ds[|ds| - 1].thinking else ""
  }

  function Parts(ds: seq<Delta>): string {
    if ds == [] then "" else Parts(ds[..|ds| - 1]) + if ds[|ds| - 1].InputJsonDelta? then ds[|ds| - 1].part else ""
  }

  function DeltaEvents(i: nat, ds: seq<Delta>): (r: seq<StreamEvent>)
    ensures |r| == |ds|
  {
    seq(|ds|, k requires 0 <= k < |ds| => BlockDelta(Some(i), ds[k]))
  }

  lemma DeltaKeepsOthers(b: BlockState, delta: Delta, key: string)
    requires b.value.Obj?
    ensures WithDelta(b, delta).Some? && WithDelta(b, delta).value.value.Obj?
    ensures key != "text" && key != "thinking" && key != "signature" ==>
              Get(WithDelta(b, delta).value.value, key) == Get(b.value, key)
    ensures TextOr(Get(WithDelta(b, delta).value.value, "text"))
            == TextOr(Get(b.value, "text")) + if delta.TextDelta? then delta.text else ""
    ensures TextOr(Get(WithDelta(b, delta).value.value, "thinking"))
            == TextOr(Get(b.value, "thinking")) + if delta.ThinkingDelta? then delta.thinking else ""
  {
    hide Put, Get;
    match delta
    case TextDelta(text) => AfterPut(b.value, "text", Str(TextOr(Get(b.value, "text")) + text), key);
    case ThinkingDelta(thinking) => AfterPut(b.value, "thinking", Str(TextOr(Get(b.value, "thinking")) + thinking), key);
    case SignatureDelta(Some(signature)) => AfterPut(b.value, "signature", Str(signature), key);
    case _ =>
  }

  lemma AfterPut(v: Value, key: string, x: Value, other: string)
    requires v.Obj?
    ensures Put(v, key, x).Some? && Put(v, key, x).value.Obj?
    ensures Get(Put(v, key, x).value, other) == if other == key then x else Get(v, other)
    ensures Get(Put(v, key, x).value, "text") == if "text" == key then x else Get(v, "text")
    ensures Get(Put(v, key, x).value, "thinking") == if "thinking" == key then x else Get(v, "thinking")
  {
    GetAfterPut(v, key, x, other);
    GetAfterPut(v, key, x, "text");
    GetAfterPut(v, key, x, "thinking");
  }

  /** A block's text, thinking and JSON are its initial values followed by its deltas, whatever their mix. */
  lemma {:induction false} DeltasAccumulate(parse: Parser, i: nat, block: Value, ds: seq<Delta>)
    requires block.Obj?
    ensures var fold := BlockFold(parse, [BlockStart(Some(i), block)] + DeltaEvents(i, ds));
            && fold.Some? && fold.value.Some? && fold.value.value.value.Obj?
            && TextOr(Get(fold.value.value.value, "text")) == TextOr(Get(block, "text")) + Texts(ds)
            && TextOr(Get(fold.value.value.value, "thinking")) == TextOr(Get(block, "thinking")) + Thoughts(ds)
            && Get(fold.value.value.value, "type") == Get(block, "type")
            && fold.value.value.partialJson == Parts(ds)
    decreases |ds|
  {
    hide Get, BlockStep, WithDelta, BlockFold;
    var start := BlockStart(Some(i), block);
    if ds == [] {
      assert [start] + DeltaEvents(i, ds) == [start];
      assert [start][..0] == [];
      FirstBlock(parse, i, block);
    } else {
      var front, last := ds[..|ds| - 1], ds[|ds| - 1];
      DeltasAccumulate(parse, i, block, front);
      assert [start] + DeltaEvents(i, ds) == ([start] + DeltaEvents(i, front)) + [BlockDelta(Some(i), last)];
      SnocBlock(parse, [start] + DeltaEvents(i, front), BlockDelta(Some(i), last));
      DeltaKeepsOthers(BlockFold(parse, [start] + DeltaEvents(i, front)).value.value, last, "type");
      StepOfDelta(parse, BlockFold(parse, [start] + DeltaEvents(i, front)).value.value, i, last);
    }
  }

  lemma FirstBlock(parse: Parser, i: nat, block: Value)
    ensures BlockFold(parse, [BlockStart(Some(i), block)]) == Some(Some(BlockState(block, "")))
  {
  }

  lemma StepOfDelta(parse: Parser, b: BlockState, i: nat, delta: Delta)
    ensures BlockStep(parse, Some(b), BlockDelta(Some(i), delta)) == Wrapped(WithDelta(b, delta))
    ensures WithDelta(b, delta).Some? ==>
              WithDelta(b, delta).value.partialJson == b.partialJson + if delta.InputJsonDelta? then delta.part else ""
  {
  }

  /** A tool-use block ends with the parse of its concatenated JSON deltas, or the stream is refused. */
  lemma ToolInputIsParsed(parse: Parser, i: nat, block: Value, ds: seq<Delta>)
    requires block.Obj? && Get(block, "type") == Str("tool_use") && Parts(ds) != ""
    ensures var fold := BlockFold(parse, [BlockStart(Some(i), block)] + DeltaEvents(i, ds) + [BlockStop(Some(i))]);
            match parse(Parts(ds))
            case None => fold == None
            case Some(input) => fold.Some? && fold.value.Some? && Get(fold.value.value.value, "input") == input
  {
    hide Get, Put, BlockFold;
    var es := [BlockStart(Some(i), block)] + DeltaEvents(i, ds);
    DeltasAccumulate(parse, i, block, ds);
    SnocBlock(parse, es, BlockStop(Some(i)));
    var b := BlockFold(parse, es).value.value;
    if parse(Parts(ds)).Some? {
      AfterPut(b.value, "input", parse(Parts(ds)).value, "input");
    }
  }

  // ------------------------------------------------- what a finished message says

  /** The newest message start, if there is one. */
  function LastStart(es: seq<StreamEvent>): Option<Value> {
    if es == [] then None
    else if es[|es| - 1].MessageStart? then Some(es[|es| - 1].message)
    else LastStart(es[..|es| - 1])
  }

  /** The newest stop reason that a message delta has given since the newest start. */
  function LastStopReason(es: seq<StreamEvent>): Option<Value> {
    if es == [] || es[|es| - 1].MessageStart? then None
    else if es[|es| - 1].MessageDelta? && es[|es| - 1].stopReason.Some? then es[|es| - 1].stopReason
    else LastStopReason(es[..|es| - 1])
  }

  predicate SawDelta(es: seq<StreamEvent>) {
    exists k :: 0 <= k < |es| && es[k].MessageDelta?
  }

  predicate SawStop(es: seq<StreamEvent>) {
    exists k :: 0 <= k < |es| && es[k].MessageStop?
  }

  /** A member that message deltas do not write. */
  predicate Kept(key: string) {
    key != "stop_reason" && key != "stop_sequence" && key != "usage" && key != "content"
  }

  /** The message so far: its start, and over it the newest stop reason. */
  ghost predicate SoFar(es: seq<StreamEvent>, m: MessageState) {
    && (m.stopped <==> SawStop(es))
    && (m.message.Some? <==> LastStart(es).Some? || SawDelta(es))
    && (m.message.Some? && LastStart(es).Some? && LastStart(es).value.Obj? ==>
          m.message.value.Obj?
          && (forall key :: Kept(key) ==> Get(m.message.value, key) == Get(LastStart(es).value, key))
          && Get(m.message.value, "stop_reason")
             == if LastStopReason(es).Some? then LastStopReason(es).value else Get(LastStart(es).value, "stop_reason"))
  }

  lemma GetAfterPutOption(v: Value, key: string, x: Option<Value>, other: string)
    requires v.Obj?
    ensures PutOption(Some(v), key, x).Some? && PutOption(Some(v), key, x).value.Obj?
    ensures Get(PutOption(Some(v), key, x).value, other) == if other == key && x.Some? then x.value else Get(v, other)
  {
    if x.Some? {
      GetAfterPut(v, key, x.value, other);
    }
  }

  /** A message delta writes its stop reason and leaves the kept members alone. */
  lemma DeltaWrites(m: MessageState, e: StreamEvent, key: string)
    requires e.MessageDelta? && m.message.Some? && m.message.value.Obj? && (Kept(key) || key == "stop_reason")
    ensures MessageStep(m, e).Some?
    ensures var m' := MessageStep(m, e).value;
            && m'.stopped == m.stopped && m'.message.Some? && m'.message.value.Obj?
            && Get(m'.message.value, key)
               == if key == "stop_reason" && e.stopReason.Some? then e.stopReason.value else Get(m.message.value, key)
  {
    hide Get, Put;
    var start := m.message.value;
    GetAfterPutOption(start, "stop_reason", e.stopReason, key);
    var first := PutOption(Some(start), "stop_reason", e.stopReason).value;
    GetAfterPutOption(first, "stop_sequence", e.stopSequence, key);
    var second := PutOption(Some(first), "stop_sequence", e.stopSequence).value;
    if e.usage.Some? {
      var existing := if Get(second, "usage").Obj? then Get(second, "usage").fields else [];
      AfterPut(second, "usage", Obj(if e.usage.value.Obj? then MergeFields(existing, e.usage.value.fields) else existing), key);
    }
  }

  lemma {:induction false} MessageSoFar(es: seq<StreamEvent>)
    requires MessageFold(es).Some?
    ensures SoFar(es, MessageFold(es).value)
    decreases |es|
  {
    hide MessageStep, SoFar, SawStop, SawDelta;
    if es == [] {
      NothingSoFar();
    } else {
      var front, e := es[..|es| - 1], es[|es| - 1];
      assert es == front + [e];
      MessageSoFar(front);
      SawSnoc(front, e);
      StepSoFar(front, e, MessageFold(front).value);
    }
  }

  lemma NothingSoFar()
    ensures SoFar([], EMPTY.message)
  {
  }

  lemma SawSnoc(front: seq<StreamEvent>, e: StreamEvent)
    ensures SawStop(front + [e]) <==> SawStop(front) || e.MessageStop?
    ensures SawDelta(front + [e]) <==> SawDelta(front) || e.MessageDelta?
  {
    var es := front + [e];
    assert es[|front|] == e && forall k :: 0 <= k < |front| ==> es[k] == front[k];
  }

  lemma StepSoFar(front: seq<StreamEvent>, e: StreamEvent, m: MessageState)
    requires SoFar(front, m) && MessageStep(m, e).Some?
    requires SawStop(front + [e]) <==> SawStop(front) || e.MessageStop?
    requires SawDelta(front + [e]) <==> SawDelta(front) || e.MessageDelta?
    ensures SoFar(front + [e], MessageStep(m, e).value)
  {
    hide Get, Kept, Put, MergeObject, SawStop, SawDelta;
    var es := front + [e];
    assert es[..|es| - 1] == front;
    if e.MessageDelta? && m.message.Some? && m.message.value.Obj? {
      DeltaWrites(m, e, "stop_reason");
      forall key | Kept(key)
        ensures Get(MessageStep(m, e).value.message.value, key) == Get(m.message.value, key)
      {
        DeltaWrites(m, e, key);
        assert key != "stop_reason" by { NotKept(key); }
      }
    }
  }

  lemma NotKept(key: string)
    requires Kept(key)
    ensures key != "stop_reason"
  {
  }

  lemma {:induction false} LookupMerged(existing: seq<Field>, update: seq<Field>, key: string)
    requires KeysUnique(update)
    ensures Lookup(MergeFields(existing, update), key)
            == if Lookup(update, key).Some? then Lookup(update, key) else Lookup(existing, key)
    decreases |update|
  {
    if update != [] {
      LookupSet(existing, update[0].key, update[0].value, key);
      LookupMerged(SetField(existing, update[0].key, update[0].value), update[1..], key);
    }
  }

  /** A message delta replaces the usage counters it names and keeps the others. */
  lemma UsageAccumulates(m: MessageState, e: StreamEvent, key: string)
    requires e.MessageDelta? && m.message.Some? && m.message.value.Obj?
    requires e.usage.Some? && e.usage.value.Obj? && KeysUnique(e.usage.value.fields)
    ensures MessageStep(m, e).Some? && MessageStep(m, e).value.message.Some?
    ensures Get(Get(MessageStep(m, e).value.message.value, "usage"), key)
            == if Lookup(e.usage.value.fields, key).Some? then Lookup(e.usage.value.fields, key).value
               else Get(Get(m.message.value, "usage"), key)
    ensures Get(MessageStep(m, e).value.message.value, "stop_sequence")
            == if e.stopSequence.Some? then e.stopSequence.value else Get(m.message.value, "stop_sequence")
  {
    hide Put, MergeFields, KeysUnique;
    var start := m.message.value;
    GetAfterPutOption(start, "stop_reason", e.stopReason, "usage");
    var first := PutOption(Some(start), "stop_reason", e.stopReason).value;
    GetAfterPutOption(start, "stop_reason", e.stopReason, "stop_sequence");
    GetAfterPutOption(first, "stop_sequence", e.stopSequence, "usage");
    var second := PutOption(Some(first), "stop_sequence", e.stopSequence).value;
    GetAfterPutOption(first, "stop_sequence", e.stopSequence, "stop_sequence");
    var existing := if Get(second, "usage").Obj? then Get(second, "usage").fields else [];
    var merged := Obj(MergeFields(existing, e.usage.value.fields));
    AfterPut(second, "usage", merged, "usage");
    AfterPut(second, "usage", merged, "stop_sequence");
    LookupMerged(existing, e.usage.value.fields, key);
  }

  /** The finished blocks, in index order. */
  lemma {:induction false} ValuesInOrder(content: Content)
    ensures |Values(content)| == |Filled(content)|
    ensures forall k :: 0 <= k < |Filled(content)| ==> Values(content)[k] == content[Filled(content)[k]].value.value
    decreases |content|
  {
    if content != [] {
      var last := |content| - 1;
      var front := content[..last];
      ValuesInOrder(front);
      var f, v := Filled(front), Values(front);
      assert Filled(content) == f + if content[last].Some? then [last] else [];
      forall k | 0 <= k < |f|
        ensures Values(content)[k] == content[Filled(content)[k]].value.value
      {
        assert Filled(content)[k] == f[k] && front[f[k]] == content[f[k]] && Values(content)[k] == v[k];
      }
    }
  }

  /** The blocks by index, each assembled from its own events. */
  ghost predicate IsContent(parse: Parser, es: seq<StreamEvent>, items: seq<Value>) {
    exists at: seq<nat> :: InOrder(parse, es, items, at)
  }

  ghost predicate BlockIs(parse: Parser, es: seq<StreamEvent>, i: nat, v: Value) {
    var fold := BlockFold(parse, BlockEvents(es, i));
    fold.Some? && fold.value.Some? && fold.value.value.value == v
  }

  ghost predicate InOrder(parse: Parser, es: seq<StreamEvent>, items: seq<Value>, at: seq<nat>) {
    && |at| == |items| && (forall k, l :: 0 <= k < l < |at| ==> at[k] < at[l])
    && (forall k :: 0 <= k < |at| ==> BlockIs(parse, es, at[k], items[k]))
    && (forall i: nat :: i !in at ==> BlockFold(parse, BlockEvents(es, i)) == Some(None))
  }

  /**
   * A stream that starts with an object and is stopped gives that object with the newest
   * stop reason and its blocks in index order, every other member as it was announced.
   */
  lemma OutcomeIsMessage(parse: Parser, es: seq<StreamEvent>)
    requires LastStart(MessageEvents(es)).Some? && LastStart(MessageEvents(es)).value.Obj?
    ensures Outcome(parse, es).Some? <==> AllFold(parse, es) && SawStop(MessageEvents(es))
    ensures Outcome(parse, es).Some? ==>
              var start, message := LastStart(MessageEvents(es)).value, Outcome(parse, es).value;
              && message.Obj? && (forall key :: Kept(key) ==> Get(message, key) == Get(start, key))
              && Get(message, "stop_reason")
                 == (if LastStopReason(MessageEvents(es)).Some? then LastStopReason(MessageEvents(es)).value else Get(start, "stop_reason"))
              && Get(message, "content").Arr? && IsContent(parse, es, Get(message, "content").items)
  {
    hide AppliedAll, MessageEvents, BlockEvents, MessageFold, BlockFold, Values, AnyBroken, Get, Put, LastStart, LastStopReason,
         SawStop, SawDelta, AllFold, IsContent, Filled;
    ChannelsAreIndependent(parse, es);
    if AppliedAll(parse, es).Some? {
      var s := AppliedAll(parse, es).value;
      MessageSoFar(MessageEvents(es));
      var message := s.message.message.value;
      forall key | Kept(key) || key == "stop_reason" || key == "content"
        ensures Put(message, "content", Arr(Values(s.content))).Some? && Put(message, "content", Arr(Values(s.content))).value.Obj?
        ensures Get(Put(message, "content", Arr(Values(s.content))).value, key)
                == if key == "content" then Arr(Values(s.content)) else Get(message, key)
      {
        AfterPut(message, "content", Arr(Values(s.content)), key);
      }
      BlocksOfStream(parse, es, s);
    }
  }

  lemma BlocksOfStream(parse: Parser, es: seq<StreamEvent>, s: Assembly)
    requires SideBySide(parse, es, s)
    ensures IsContent(parse, es, Values(s.content))
  {
    hide MessageEvents, BlockEvents, MessageFold, BlockFold, Values;
    ValuesInOrder(s.content);
    var at := Filled(s.content);
    forall k | 0 <= k < |at|
      ensures BlockIs(parse, es, at[k], Values(s.content)[k])
    {
      assert BlockFold(parse, BlockEvents(es, at[k])) == Some(At(s.content, at[k]));
    }
    forall i: nat | i !in at
      ensures BlockFold(parse, BlockEvents(es, i)) == Some(None)
    {
      assert At(s.content, i) == None;
    }
    assert InOrder(parse, es, Values(s.content), at);
  }

  // --------------------------------------------------- events as they are sent

  function Record(fields: seq<Field>, key: string, v: Option<Value>): seq<Field> {
    if v.Some? then fields + [Field(key, v.value)] else fields
  }

  function DeltaJson(delta: Delta): Value {
    match delta
    case TextDelta(text) => Obj([Field("type", Str("text_delta")), Field("text", Str(text))])
    case InputJsonDelta(part) => Obj([Field("type", Str("input_json_delta")), Field("partial_json", Str(part))])
    case ThinkingDelta(thinking) => Obj([Field("type", Str("thinking_delta")), Field("thinking", Str(thinking))])
    case SignatureDelta(signature) =>
      Obj(Record([Field("type", Str("signature_delta"))], "signature", if signature.Some? then Some(Str(signature.value)) else None))
    case OtherDelta => Obj([])
  }

  function Indexed(name: string, index: Option<nat>): seq<Field> {
    Record([Field("type", Str(name))], "index", if index.Some? then Some(Int(index.value)) else None)
  }

  /** The event as the provider writes it. */
  function EventJson(e: StreamEvent): Value {
    match e
    case MessageStart(message) => Obj([Field("type", Str("message_start")), Field("message", message)])
    case BlockStart(index, block) => Obj(Indexed("content_block_start", index) + [Field("content_block", block)])
    case BlockDelta(index, delta) => Obj(Indexed("content_block_delta", index) + [Field("delta", DeltaJson(delta))])
    case BlockStop(index) => Obj(Indexed("content_block_stop", index))
    case MessageDelta(stopReason, stopSequence, usage) =>
      Obj(Record([Field("type", Str("message_delta")),
                  Field("delta", Obj(Record(Record([], "stop_reason", stopReason), "stop_sequence", stopSequence)))], "usage", usage))
    case MessageStop => Obj([Field("type", Str("message_stop"))])
    case StreamError => Obj([Field("type", Str("error"))])
    case Ignored => Obj([Field("type", Str("ping"))])
  }

  /** A member whose key occurs once is found under it. */
  lemma GetAt(v: Value, i: nat)
    requires v.Obj? && i < |v.fields| && forall j :: 0 <= j < |v.fields| && j != i ==> v.fields[j].key != v.fields[i].key
    ensures Member(v, v.fields[i].key) == Some(v.fields[i].value) && Get(v, v.fields[i].key) == v.fields[i].value
  {
    hide Lookup;
    assert v.fields[i].key == v.fields[i].key;
  }

  lemma GetNone(v: Value, key: string)
    requires v.Obj? && forall j :: 0 <= j < |v.fields| ==> v.fields[j].key != key
    ensures Member(v, key) == None && Get(v, key) == Null
  {
    hide Lookup;
  }

  lemma TypedMembers(kind: string, key: string, text: string)
    requires key != "type"
    ensures var v := Obj([Field("type", Str(kind)), Field(key, Str(text))]);
            TextOr(Get(v, "type")) == kind && Get(v, key) == Str(text)
  {
    hide Get;
    var v := Obj([Field("type", Str(kind)), Field(key, Str(text))]);
    GetAt(v, 0);
    GetAt(v, 1);
  }

  lemma BareDelta()
    ensures DeltaOf(Obj([])) == OtherDelta && DeltaOf(Obj([Field("type", Str("signature_delta"))])) == SignatureDelta(None)
  {
    hide Get, Member;
    GetNone(Obj([]), "type");
    var v := Obj([Field("type", Str("signature_delta"))]);
    GetAt(v, 0);
    GetNone(v, "signature");
  }

  lemma DeltaIsRead(delta: Delta)
    ensures DeltaOf(DeltaJson(delta)) == delta
  {
    hide Get;
    match delta
    case TextDelta(text) => TypedMembers("text_delta", "text", text);
    case InputJsonDelta(part) => TypedMembers("input_json_delta", "partial_json", part);
    case ThinkingDelta(thinking) => TypedMembers("thinking_delta", "thinking", thinking);
    case SignatureDelta(Some(signature)) =>
      TypedMembers("signature_delta", "signature", signature);
      assert DeltaJson(delta) == Obj([Field("type", Str("signature_delta")), Field("signature", Str(signature))]);
    case _ => BareDelta();
  }

  lemma PlainEventIsRead(e: StreamEvent)
    requires !IsBlockEvent(e) && !e.MessageDelta?
    ensures EventOf(EventJson(e)) == e
  {
    hide Get, Member, DeltaOf, DeltaJson;
    GetAt(EventJson(e), 0);
    if e.MessageStart? {
      GetAt(EventJson(e), 1);
    }
  }

  lemma BlockStartIsRead(index: Option<nat>, block: Value)
    ensures EventOf(EventJson(BlockStart(index, block))) == BlockStart(index, block)
  {
    hide Get, Member, DeltaOf, DeltaJson, IndexOf;
    var v := EventJson(BlockStart(index, block));
    GetAt(v, 0);
    IndexedIsRead(v, "content_block_start", index);
  }

  lemma BlockDeltaIsRead(index: Option<nat>, delta: Delta)
    ensures EventOf(EventJson(BlockDelta(index, delta))) == BlockDelta(index, delta)
  {
    hide Get, Member, DeltaOf, DeltaJson, IndexOf;
    var v := EventJson(BlockDelta(index, delta));
    GetAt(v, 0);
    IndexedIsRead(v, "content_block_delta", index);
    DeltaIsRead(delta);
  }

  lemma BlockStopIsRead(index: Option<nat>)
    ensures EventOf(EventJson(BlockStop(index))) == BlockStop(index)
  {
    hide Get, Member, DeltaOf, DeltaJson, IndexOf;
    var v := EventJson(BlockStop(index));
    GetAt(v, 0);
    IndexedIsRead(v, "content_block_stop", index);
  }

  lemma MessageDeltaIsRead(e: StreamEvent)
    requires e.MessageDelta?
    ensures EventOf(EventJson(e)) == e
  {
    hide Get, Member, DeltaOf, DeltaJson;
    var v := EventJson(e);
    GetAt(v, 0);
    GetAt(v, 1);
    if e.usage.Some? { GetAt(v, 2); } else { GetNone(v, "usage"); }
    StopMembers(e.stopReason, e.stopSequence);
  }

  /** Every event is read back from the form in which it is sent. */
  lemma EventIsRead(e: StreamEvent)
    ensures EventOf(EventJson(e)) == e
  {
    hide EventOf, EventJson;
    match e
    case BlockStart(index, block) => BlockStartIsRead(index, block);
    case BlockDelta(index, delta) => BlockDeltaIsRead(index, delta);
    case BlockStop(index) => BlockStopIsRead(index);
    case MessageDelta(_, _, _) => MessageDeltaIsRead(e);
    case _ => PlainEventIsRead(e);
  }

  lemma IndexedIsRead(v: Value, name: string, index: Option<nat>)
    requires v.Obj? && |v.fields| >= |Indexed(name, index)| && v.fields[..|Indexed(name, index)|] == Indexed(name, index)
    requires |v.fields| <= |Indexed(name, index)| + 1
    requires |v.fields| > |Indexed(name, index)| ==> v.fields[|v.fields| - 1].key != "index" && v.fields[|v.fields| - 1].key != "type"
    ensures IndexOf(Get(v, "index")) == index
    ensures |v.fields| > |Indexed(name, index)| ==> Get(v, v.fields[|v.fields| - 1].key) == v.fields[|v.fields| - 1].value
  {
    hide Get, Member;
    var head := Indexed(name, index);
    assert forall i :: 0 <= i < |head| ==> v.fields[i] == head[i];
    if index.Some? { GetAt(v, 1); } else { GetNone(v, "index"); }
    if |v.fields| > |head| {
      GetAt(v, |v.fields| - 1);
    }
  }

  lemma StopMembers(stopReason: Option<Value>, stopSequence: Option<Value>)
    ensures var v := Obj(Record(Record([], "stop_reason", stopReason), "stop_sequence", stopSequence));
            Member(v, "stop_reason") == stopReason && Member(v, "stop_sequence") == stopSequence
  {
    hide Get, Member;
    var v := Obj(Record(Record([], "stop_reason", stopReason), "stop_sequence", stopSequence));
    if stopReason.Some? { GetAt(v, 0); } else { GetNone(v, "stop_reason"); }
    if stopSequence.Some? { GetAt(v, |v.fields| - 1); } else { GetNone(v, "stop_sequence"); }
  }
}
