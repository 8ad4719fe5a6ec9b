// The server-sent-event decoder shared by both streaming clients.
module Sse {
  import opened Basics
  import Utf8

  const LF: Byte := 10
  const CR: Byte := 13

  datatype SseEvent = SseEvent(event: string, data: string)

  /** The fields collected since the last blank line. */
  datatype Fields = Fields(event: Option<string>, data: seq<string>)

  const NO_FIELDS := Fields(None, [])

  // ------------------------------------------------------------ line by line

  function Joined(lines: seq<string>): string {
    if lines == [] then ""
    else if |lines| == 1 then lines[0]
    else lines[0] + "\n" + Joined(lines[1..])
  }

  /** An event is due when any field was seen; its name defaults to `message`. */
  function Flushed(f: Fields): seq<SseEvent> {
    if f.event.None? && f.data == [] then []
    else [SseEvent(if f.event.Some? then f.event.value else "message", Joined(f.data))]
  }

  function Position(s: string, c: char): (p: Option<nat>)
    ensures p.Some? ==> p.value < |s| && s[p.value] == c && c !in s[..p.value]
    ensures p.None? ==> c !in s
  {
    if s == "" then None
    else if s[0] == c then Some(0)
    else
      match Position(s[1..], c)
      case None => None
      case Some(p) => Some(p + 1)
  }

  /** The field name and value of a line: split at the first colon, one leading space dropped. */
  function SplitField(line: string): (string, string) {
    match Position(line, ':')
    case None => (line, "")
    case Some(p) =>
      var value := line[p + 1..];
      (line[..p], if value != "" && value[0] == ' ' then value[1..] else value)
  }

  function WithLine(f: Fields, line: string): Fields {
    var (field, value) := SplitField(line);
    if line != "" && line[0] == ':' then f
    else if field == "event" then f.(event := Some(value))
    else if field == "data" then f.(data := f.data + [value])
    else f
  }

  /** One decoded line: a blank one ends the event. */
  function AfterLine(f: Fields, line: string): (Fields, seq<SseEvent>) {
    if line == "" then (NO_FIELDS, Flushed(f)) else (WithLine(f, line), [])
  }

  function StripCr(line: seq<Byte>): seq<Byte> {
    if line != [] && line[|line| - 1] == CR then line[..|line| - 1] else line
  }

  function RunLines(f: Fields, lines: seq<seq<Byte>>): Result<(Fields, seq<SseEvent>)>
    decreases |lines|
  {
    if lines == [] then Ok((f, []))
    else
      match Utf8.StringOf(StripCr(lines[0]))
      case None => Err(InvalidInput)
      case Some(line) =>
        var (f', events) := AfterLine(f, line);
        match RunLines(f', lines[1..])
        case Err(error) => Err(error)
        case Ok((f'', rest)) => Ok((f'', events + rest))
  }

  /** The complete lines of a byte string, and the unfinished one. */
  function SplitLines(bytes: seq<Byte>): (r: (seq<seq<Byte>>, seq<Byte>))
    ensures LF !in r.1
  {
    if bytes == [] then ([], [])
    else
      var (lines, rest) := SplitLines(bytes[1..]);
      if bytes[0] == LF then ([[]] + lines, rest)
      else if lines == [] then ([], [bytes[0]] + rest)
      else ([[bytes[0]] + lines[0]] + lines[1..], rest)
  }

  function TrimCrs(line: string): string {
    if line != "" && line[|line| - 1] == '\r' then TrimCrs(line[..|line| - 1]) else line
  }

  /** The end of the stream: an unfinished line counts, and so does an unfinished event. */
  function Finished(f: Fields, rest: seq<Byte>): Result<seq<SseEvent>> {
    if rest == [] then Ok(Flushed(f))
    else
      match Utf8.StringOf(rest)
      case None => Err(InvalidInput)
      case Some(line) =>
        var (f', events) := AfterLine(f, TrimCrs(line));
        Ok(events + Flushed(f'))
  }

  /** The whole stream in one pass over its lines. */
  function Decoded(stream: seq<Byte>): Result<seq<SseEvent>> {
    var (lines, rest) := SplitLines(stream);
    match RunLines(NO_FIELDS, lines)
    case Err(error) => Err(error)
    case Ok((f, events)) =>
      match Finished(f, rest)
      case Err(error) => Err(error)
      case Ok(last) => Ok(events + last)
  }

  // -------------------------------------------------------------- splitting

  lemma {:induction false} SplitFirst(line: seq<Byte>, rest: seq<Byte>)
    requires LF !in line
    ensures SplitLines(line + [LF] + rest) == ([line] + SplitLines(rest).0, SplitLines(rest).1)
  {
    var all := line + [LF] + rest;
    if line == [] {
      assert all[1..] == rest;
    } else {
      assert all[1..] == line[1..] + [LF] + rest;
      SplitFirst(line[1..], rest);
      assert line == [line[0]] + line[1..];
    }
  }

  lemma {:induction false} SplitNone(bytes: seq<Byte>)
    requires LF !in bytes
    ensures SplitLines(bytes) == ([], bytes)
  {
    if bytes != [] {
      assert bytes == [bytes[0]] + bytes[1..];
      SplitNone(bytes[1..]);
    }
  }

  /** More bytes complete the unfinished line and never change the finished ones. */
  lemma {:induction false} SplitContinues(a: seq<Byte>, b: seq<Byte>)
    ensures SplitLines(a + b).0 == SplitLines(a).0 + SplitLines(SplitLines(a).1 + b).0
    ensures SplitLines(a + b).1 == SplitLines(SplitLines(a).1 + b).1
    decreases |a|
  {
    if LF in a {
      var pos := FirstLf(a);
      var line, rest := a[..pos], a[pos + 1..];
      assert a == line + [LF] + rest;
      assert a + b == line + [LF] + (rest + b);
      SplitFirst(line, rest);
      SplitFirst(line, rest + b);
      SplitContinues(rest, b);
    } else {
      SplitNone(a);
    }
  }

  lemma FirstLf(bytes: seq<Byte>) returns (pos: nat)
    requires LF in bytes
    ensures pos < |bytes| && bytes[pos] == LF && LF !in bytes[..pos]
  {
    pos := 0;
    while bytes[pos] != LF
      invariant pos < |bytes| && LF !in bytes[..pos] && LF in bytes[pos..]
      decreases |bytes| - pos
    {
      assert bytes[pos..] == [bytes[pos]] + bytes[pos + 1..];
      assert bytes[..pos + 1] == bytes[..pos] + [bytes[pos]];
      pos := pos + 1;
    }
  }

  lemma {:induction false} RunLinesThen(f: Fields, a: seq<seq<Byte>>, b: seq<seq<Byte>>)
    ensures RunLines(f, a + b) == match RunLines(f, a)
                                  case Err(error) => Err(error)
                                  case Ok((f', events)) =>
                                    match RunLines(f', b)
                                    case Err(error) => Err(error)
                                    case Ok((f'', more)) => Ok((f'', events + more))
    decreases |a|
  {
    hide StripCr, AfterLine, Utf8.StringOf;
    if a == [] {
      assert a + b == b;
      if RunLines(f, b).Ok? {
        assert [] + RunLines(f, b).value.1 == RunLines(f, b).value.1;
      }
    } else {
      assert (a + b)[1..] == a[1..] + b;
      match Utf8.StringOf(StripCr(a[0]))
      case None =>
      case Some(line) =>
        var (f', events) := AfterLine(f, line);
        RunLinesThen(f', a[1..], b);
        if RunLines(f', a[1..]).Ok? {
          var (f'', rest) := RunLines(f', a[1..]).value;
          if RunLines(f'', b).Ok? {
            assert events + (rest + RunLines(f'', b).value.1) == (events + rest) + RunLines(f'', b).value.1;
          }
        }
    }
  }

  // ------------------------------------------------------------- the decoder

  class SseDecoder {
    var pending: seq<Byte>
    var event: Option<string>
    var data: seq<string>

    constructor ()
      ensures pending == [] && State() == NO_FIELDS
    {
      pending, event, data := [], None, [];
    }

    ghost function State(): Fields
      reads this
    {
      Fields(event, data)
    }

    /** Takes in a chunk and returns the events its complete lines finish. */
    method Push(chunk: seq<Byte>) returns (r: Result<seq<SseEvent>>)
      modifies this
      ensures var (lines, rest) := SplitLines(old(pending) + chunk);
              match RunLines(old(State()), lines)
              case Err(error) => r == Err(error)
              case Ok((f, events)) => r == Ok(events) && State() == f && pending == rest
    {
      hide SplitLines, RunLines, AfterLine;
      pending := pending + chunk;
      ghost var all, before := pending, State();
      var events: seq<SseEvent> := [];
      ghost var done: seq<seq<Byte>> := [];
      assert RunLines(before, []) == Ok((before, [])) by { NoLines(before); }
      assert [] + SplitLines(pending).0 == SplitLines(pending).0;
      var pos: Option<nat> := NextLf(pending);
      while pos.Some?
        invariant SplitLines(all) == (done + SplitLines(pending).0, SplitLines(pending).1)
        invariant RunLines(before, done) == Ok((State(), events))
        invariant pos.Some? ==> pos.value < |pending| && pending[pos.value] == LF && LF !in pending[..pos.value]
        invariant pos.None? ==> LF !in pending
        decreases |pending|
      {
        var line := pending[..pos.value];
        ghost var was := pending;
        pending := pending[pos.value + 1..];
        assert was == line + [LF] + pending;
        SplitFirst(line, pending);
        var text := Utf8.StringOf(StripCr(line));
        ghost var lines := SplitLines(pending).0;
        RunLinesThen(before, done + [line], lines);
        RunLinesThen(before, done, [line]);
        OneLine(State(), line);
        assert done + ([line] + lines) == (done + [line]) + lines;
        if text.None? {
          return Err(InvalidInput);
        }
        var event := PushLine(text.value);
        events := events + event;
        done := done + [line];
        pos := NextLf(pending);
      }
      SplitNone(pending);
      assert done + [] == done;
      return Ok(events);
    }

    /** The end of the stream. */
    method Finish() returns (r: Result<seq<SseEvent>>)
      requires LF !in pending
      modifies this
      ensures r == Finished(old(State()), old(pending))
    {
      var events: seq<SseEvent> := [];
      if pending != [] {
        var line := Utf8.StringOf(pending);
        pending := [];
        if line.None? {
          return Err(InvalidInput);
        }
        events := PushLine(TrimCrs(line.value));
      }
      var last := Flush();
      assert [] + last == last;
      return Ok(events + last);
    }

    method PushLine(line: string) returns (events: seq<SseEvent>)
      modifies this`event, this`data
      ensures (State(), events) == AfterLine(old(State()), line)
    {
      if line == "" {
        events := Flush();
        return;
      }
      if line[0] == ':' {
        return [];
      }
      var (field, value) := SplitField(line);
      events := [];
      match field
      case "event" => event := Some(value);
      case "data" => data := data + [value];
      case _ =>
    }

    method Flush() returns (events: seq<SseEvent>)
      modifies this`event, this`data
      ensures State() == NO_FIELDS && events == Flushed(old(State()))
    {
      events := Flushed(Fields(event, data));
      event, data := None, [];
    }
  }

  method NextLf(bytes: seq<Byte>) returns (pos: Option<nat>)
    ensures pos.Some? ==> pos.value < |bytes| && bytes[pos.value] == LF && LF !in bytes[..pos.value]
    ensures pos.None? ==> LF !in bytes
  {
    for i := 0 to |bytes|
      invariant LF !in bytes[..i]
    {
      if bytes[i] == LF {
        return Some(i);
      }
      assert bytes[..i + 1] == bytes[..i] + [bytes[i]];
    }
    assert bytes[..|bytes|] == bytes;
    return None;
  }

  lemma NoLines(f: Fields)
    ensures RunLines(f, []) == Ok((f, []))
  {
  }

  lemma OneLine(f: Fields, line: seq<Byte>)
    ensures RunLines(f, [line]) == match Utf8.StringOf(StripCr(line))
                                   case None => Err(InvalidInput)
                                   case Some(text) => Ok(AfterLine(f, text))
  {
    assert [line][1..] == [];
    NoLines(f);
    if Utf8.StringOf(StripCr(line)).Some? {
      var (f', events) := AfterLine(f, Utf8.StringOf(StripCr(line)).value);
      assert events + [] == events;
    }
  }

  function Concat(chunks: seq<seq<Byte>>): seq<Byte> {
    if chunks == [] then [] else Concat(chunks[..|chunks| - 1]) + chunks[|chunks| - 1]
  }

  /**
   * Decoding does not depend on chunking: pushing the chunks one by one and then
   * finishing gives what one pass over the concatenated bytes gives, the refusal
   * of invalid UTF-8 included.
   */
  method DecodeStream(chunks: seq<seq<Byte>>) returns (r: Result<seq<SseEvent>>)
    ensures r == Decoded(Concat(chunks))
  {
    hide SplitLines, RunLines, Finished;
    var decoder := new SseDecoder();
    var events: seq<SseEvent> := [];
    assert SplitLines([]) == ([], []) by { SplitNone([]); }
    NoLines(NO_FIELDS);
    for i := 0 to |chunks|
      invariant SplitLines(Concat(chunks[..i])).1 == decoder.pending
      invariant RunLines(NO_FIELDS, SplitLines(Concat(chunks[..i])).0) == Ok((decoder.State(), events))
    {
      assert chunks[..i + 1][..i] == chunks[..i];
      ghost var before, whole := Concat(chunks[..i]), Concat(chunks[..i + 1]);
      SplitContinues(before, chunks[i]);
      RunLinesThen(NO_FIELDS, SplitLines(before).0, SplitLines(decoder.pending + chunks[i]).0);
      OnlyInvalidInput(decoder.State(), SplitLines(decoder.pending + chunks[i]).0);
      var more := decoder.Push(chunks[i]);
      if more.Err? {
        ErrorStays(chunks, i + 1);
        return Err(more.error);
      }
      events := events + more.value;
    }
    assert chunks[..|chunks|] == chunks;
    var last := decoder.Finish();
    if last.Err? {
      return Err(last.error);
    }
    return Ok(events + last.value);
  }

  /** A refused prefix refuses the whole stream. */
  lemma {:induction false} ErrorStays(chunks: seq<seq<Byte>>, i: nat)
    requires i <= |chunks| && RunLines(NO_FIELDS, SplitLines(Concat(chunks[..i])).0).Err?
    ensures RunLines(NO_FIELDS, SplitLines(Concat(chunks)).0) == Err(InvalidInput)
    decreases |chunks| - i
  {
    hide SplitLines, RunLines;
    if i == |chunks| {
      assert chunks[..i] == chunks;
      OnlyInvalidInput(NO_FIELDS, SplitLines(Concat(chunks)).0);
    } else {
      var before := Concat(chunks[..i]);
      assert chunks[..i + 1][..i] == chunks[..i];
      SplitContinues(before, chunks[i]);
      RunLinesThen(NO_FIELDS, SplitLines(before).0, SplitLines(SplitLines(before).1 + chunks[i]).0);
      ErrorStays(chunks, i + 1);
    }
  }

  lemma {:induction false} OnlyInvalidInput(f: Fields, lines: seq<seq<Byte>>)
    ensures RunLines(f, lines).Err? ==> RunLines(f, lines) == Err(InvalidInput)
    decreases |lines|
  {
    if lines != [] && Utf8.StringOf(StripCr(lines[0])).Some? {
      OnlyInvalidInput(AfterLine(f, Utf8.StringOf(StripCr(lines[0])).value).0, lines[1..]);
    }
  }

  // ------------------------------------------------------------- round trip

  /** A text that survives as one line: no line feed inside, no carriage return at its end. */
  predicate LineSafe(s: string) {
    '\n' !in s && (s != "" ==> s[|s| - 1] != '\r')
  }

  /** An event as its lines: possibly a name, and one or more lines of data. */
  datatype Frame = Frame(name: Option<string>, lines: seq<string>)

  predicate SafeFrame(f: Frame) {
    (f.name.Some? ==> LineSafe(f.name.value)) && f.lines != [] && forall i :: 0 <= i < |f.lines| ==> LineSafe(f.lines[i])
  }

  function DataLines(lines: seq<string>): string {
    if lines == [] then "" else "data: " + lines[0] + "\n" + DataLines(lines[1..])
  }

  function Printed(f: Frame): string {
    (if f.name.Some? then "event: " + f.name.value + "\n" else "") + DataLines(f.lines) + "\n"
  }

  function PrintedAll(frames: seq<Frame>): string {
    if frames == [] then "" else Printed(frames[0]) + PrintedAll(frames[1..])
  }

  /** An event without a name is a `message`. */
  function EventFor(f: Frame): SseEvent {
    SseEvent(if f.name.Some? then f.name.value else "message", Joined(f.lines))
  }

  function EventsOf(frames: seq<Frame>): (r: seq<SseEvent>)
    ensures |r| == |frames|
  {
    if frames == [] then []
    else [EventFor(frames[0])] + EventsOf(frames[1..])
  }

  // Text lines, printed with line feeds and decoded as bytes.

  function LineBytes(lines: seq<string>): (r: seq<seq<Byte>>)
    ensures |r| == |lines| && forall i :: 0 <= i < |r| ==> r[i] == Utf8.OfString(lines[i])
  {
    seq(|lines|, i requires 0 <= i < |lines| => Utf8.OfString(lines[i]))
  }

  function Terminated(lines: seq<string>): string {
    if lines == [] then "" else lines[0] + "\n" + Terminated(lines[1..])
  }

  function NameLine(f: Frame): seq<string> {
    if f.name.Some? then ["event: " + f.name.value] else []
  }

  /** The lines that a frame prints. */
  function FrameLines(f: Frame): seq<string> {
    NameLine(f) + DataFields(f.lines) + [""]
  }

  function DataFields(lines: seq<string>): (r: seq<string>)
    ensures |r| == |lines| && forall i :: 0 <= i < |r| ==> r[i] == "data: " + lines[i]
  {
    seq(|lines|, i requires 0 <= i < |lines| => "data: " + lines[i])
  }

  lemma ByteOfChar(c: char)
    requires c as int < 0x80
    ensures Utf8.OfString([c]) == [c as int]
  {
    assert [c][1..] == "";
  }

  /** A multi-byte character never contains the byte of an ASCII one. */
  lemma {:induction false} AsciiByteIsChar(s: string, c: char)
    requires c as int < 0x80 && (c as int) in Utf8.OfString(s)
    ensures c in s
  {
    if s[0] != c {
      var head := Utf8.Utf8Bytes(s[0] as int);
      assert (c as int) !in head;
      assert Utf8.OfString(s) == head + Utf8.OfString(s[1..]);
      AsciiByteIsChar(s[1..], c);
    }
  }

  lemma {:induction false} LastByteIsLastChar(s: string)
    requires s != "" && s[|s| - 1] != '\r'
    ensures var bytes := Utf8.OfString(s); bytes != [] && bytes[|bytes| - 1] != CR
  {
    var front, last := s[..|s| - 1], s[|s| - 1];
    assert s == front + [last];
    Utf8.OfStringConcat(front, [last]);
    assert [last][1..] == "";
    assert Utf8.OfString([last]) == Utf8.Utf8Bytes(last as int);
    LastByteNotCr(last);
  }

  lemma LastByteNotCr(c: char)
    requires c != '\r'
    ensures var bytes := Utf8.Utf8Bytes(c as int); bytes[|bytes| - 1] != CR
  {
  }

  lemma SafeLineBytes(s: string)
    requires LineSafe(s)
    ensures LF !in Utf8.OfString(s) && StripCr(Utf8.OfString(s)) == Utf8.OfString(s)
  {
    if LF in Utf8.OfString(s) {
      AsciiByteIsChar(s, '\n');
    }
    if s != "" {
      LastByteIsLastChar(s);
    }
  }

  predicate AllSafe(lines: seq<string>) {
    forall i :: 0 <= i < |lines| ==> LineSafe(lines[i])
  }

  lemma NoBytes()
    ensures Utf8.OfString("") == []
  {
  }

  lemma {:induction false} TerminatedSplits(lines: seq<string>)
    requires AllSafe(lines)
    ensures SplitLines(Utf8.OfString(Terminated(lines))) == (LineBytes(lines), [])
  {
    hide SplitLines, Utf8.OfString;
    if lines == [] {
      SplitNone([]);
      assert Utf8.OfString("") == [] by { NoBytes(); }
    } else {
      TerminatedSplits(lines[1..]);
      SafeLineBytes(lines[0]);
      Utf8.OfStringConcat(lines[0] + "\n", Terminated(lines[1..]));
      Utf8.OfStringConcat(lines[0], "\n");
      ByteOfChar('\n');
      SplitFirst(Utf8.OfString(lines[0]), Utf8.OfString(Terminated(lines[1..])));
      assert LineBytes(lines) == [Utf8.OfString(lines[0])] + LineBytes(lines[1..]);
    }
  }

  /** The decoder's fold over text lines. */
  function RunTexts(f: Fields, lines: seq<string>): (Fields, seq<SseEvent>)
    decreases |lines|
  {
    if lines == [] then (f, [])
    else
      var (f', events) := AfterLine(f, lines[0]);
      var (f'', rest) := RunTexts(f', lines[1..]);
      (f'', events + rest)
  }

  lemma {:induction false} RunTextLines(f: Fields, lines: seq<string>)
    requires AllSafe(lines)
    ensures RunLines(f, LineBytes(lines)) == Ok(RunTexts(f, lines))
    decreases |lines|
  {
    if lines != [] {
      SafeLineBytes(lines[0]);
      Utf8.StringOfBytes(lines[0]);
      assert LineBytes(lines)[1..] == LineBytes(lines[1..]);
      RunTextLines(AfterLine(f, lines[0]).0, lines[1..]);
    }
  }

  lemma {:induction false} RunTextsThen(f: Fields, a: seq<string>, b: seq<string>)
    ensures RunTexts(f, a + b)
            == (RunTexts(RunTexts(f, a).0, b).0, RunTexts(f, a).1 + RunTexts(RunTexts(f, a).0, b).1)
    decreases |a|
  {
    if a == [] {
      assert a + b == b;
      assert [] + RunTexts(f, b).1 == RunTexts(f, b).1;
    } else {
      assert (a + b)[1..] == a[1..] + b;
      var (f', events) := AfterLine(f, a[0]);
      RunTextsThen(f', a[1..], b);
      var x, y := RunTexts(f', a[1..]).1, RunTexts(RunTexts(f', a[1..]).0, b).1;
      assert events + (x + y) == (events + x) + y;
    }
  }

  lemma FieldLine(name: string, value: string)
    requires ':' !in name && name != ""
    ensures SplitField(name + ": " + value) == (name, value)
  {
    var line := name + ": " + value;
    assert line[|name|] == ':';
    assert forall k :: 0 <= k < |name| ==> line[k] == name[k];
    assert Position(line, ':') == Some(|name|);
    assert line[..|name|] == name && line[|name| + 1..] == " " + value;
  }

  lemma DataLine(f: Fields, value: string)
    ensures AfterLine(f, "data: " + value) == (f.(data := f.data + [value]), [])
  {
    FieldLine("data", value);
    assert "data" + ": " + value == "data: " + value;
  }

  lemma EventLine(f: Fields, value: string)
    ensures AfterLine(f, "event: " + value) == (f.(event := Some(value)), [])
  {
    FieldLine("event", value);
    assert "event" + ": " + value == "event: " + value;
  }

  lemma {:induction false} DataRuns(f: Fields, lines: seq<string>)
    ensures RunTexts(f, DataFields(lines)) == (f.(data := f.data + lines), [])
    decreases |lines|
  {
    hide AfterLine;
    if lines == [] {
      assert f.data + [] == f.data;
    } else {
      DataLine(f, lines[0]);
      assert DataFields(lines)[1..] == DataFields(lines[1..]);
      var next := f.(data := f.data + [lines[0]]);
      DataRuns(next, lines[1..]);
      assert f.data + [lines[0]] + lines[1..] == f.data + lines;
      assert RunTexts(f, DataFields(lines)).1 == [] + RunTexts(next, DataFields(lines[1..])).1;
    }
  }

  lemma NameRuns(f: Frame)
    ensures RunTexts(NO_FIELDS, NameLine(f)) == (NO_FIELDS.(event := f.name), [])
  {
    hide AfterLine;
    if f.name.Some? {
      EventLine(NO_FIELDS, f.name.value);
      OneText(NO_FIELDS, "event: " + f.name.value);
    }
  }

  lemma FrameRuns(f: Frame)
    requires f.lines != []
    ensures RunTexts(NO_FIELDS, FrameLines(f)) == (NO_FIELDS, [EventFor(f)])
  {
    hide RunTexts, DataFields;
    var named := NO_FIELDS.(event := f.name);
    NameRuns(f);
    RunTextsThen(NO_FIELDS, NameLine(f), DataFields(f.lines));
    DataRuns(named, f.lines);
    assert [] + f.lines == f.lines;
    RunTextsThen(NO_FIELDS, NameLine(f) + DataFields(f.lines), [""]);
    OneText(named.(data := f.lines), "");
    assert forall events: seq<SseEvent> :: [] + events == events;
  }

  lemma OneText(f: Fields, line: string)
    ensures RunTexts(f, [line]) == AfterLine(f, line)
  {
    assert [line][1..] == [];
    assert AfterLine(f, line).1 + [] == AfterLine(f, line).1;
  }

  function AllLines(frames: seq<Frame>): seq<string> {
    if frames == [] then [] else FrameLines(frames[0]) + AllLines(frames[1..])
  }

  lemma NoTexts()
    ensures RunTexts(NO_FIELDS, []) == (NO_FIELDS, [])
  {
  }

  lemma {:induction false} FramesRun(frames: seq<Frame>)
    requires forall i :: 0 <= i < |frames| ==> SafeFrame(frames[i])
    ensures RunTexts(NO_FIELDS, AllLines(frames)) == (NO_FIELDS, EventsOf(frames))
  {
    hide RunTexts, FrameLines, EventFor;
    if frames == [] {
      assert RunTexts(NO_FIELDS, []) == (NO_FIELDS, []) by { NoTexts(); }
    } else {
      FrameRuns(frames[0]);
      FramesRun(frames[1..]);
      RunTextsThen(NO_FIELDS, FrameLines(frames[0]), AllLines(frames[1..]));
    }
  }

  lemma {:induction false} TerminatedConcat(a: seq<string>, b: seq<string>)
    ensures Terminated(a + b) == Terminated(a) + Terminated(b)
    decreases |a|
  {
    if a == [] {
      assert a + b == b;
    } else {
      assert (a + b)[1..] == a[1..] + b;
      TerminatedConcat(a[1..], b);
    }
  }

  lemma {:induction false} DataLinesTerminated(lines: seq<string>)
    ensures Terminated(DataFields(lines)) == DataLines(lines)
    decreases |lines|
  {
    if lines != [] {
      assert DataFields(lines)[1..] == DataFields(lines[1..]);
      DataLinesTerminated(lines[1..]);
    }
  }

  lemma OneTerminated(line: string)
    ensures Terminated([line]) == line + "\n"
  {
    assert [line][1..] == [];
  }

  lemma FramePrints(f: Frame)
    ensures Terminated(FrameLines(f)) == Printed(f)
  {
    TerminatedConcat(NameLine(f) + DataFields(f.lines), [""]);
    TerminatedConcat(NameLine(f), DataFields(f.lines));
    DataLinesTerminated(f.lines);
    OneTerminated("");
    if f.name.Some? {
      OneTerminated("event: " + f.name.value);
    }
  }

  lemma {:induction false} FramesPrint(frames: seq<Frame>)
    ensures Terminated(AllLines(frames)) == PrintedAll(frames)
  {
    if frames != [] {
      FramePrints(frames[0]);
      FramesPrint(frames[1..]);
      TerminatedConcat(FrameLines(frames[0]), AllLines(frames[1..]));
    }
  }

  lemma PrefixSafe(prefix: string, s: string)
    requires LineSafe(s) && prefix != "" && LineSafe(prefix)
    ensures LineSafe(prefix + s)
  {
  }

  lemma {:induction false} LinesAreSafe(frames: seq<Frame>)
    requires forall i :: 0 <= i < |frames| ==> SafeFrame(frames[i])
    ensures AllSafe(AllLines(frames))
  {
    if frames != [] {
      LinesAreSafe(frames[1..]);
      var f := frames[0];
      if f.name.Some? {
        PrefixSafe("event: ", f.name.value);
      }
      forall i | 0 <= i < |f.lines|
        ensures LineSafe(DataFields(f.lines)[i])
      {
        PrefixSafe("data: ", f.lines[i]);
      }
    }
  }

  /** Decoding inverts printing, for events whose lines hold no line feed and do not end in a carriage return. */
  lemma PrintedFramesDecode(frames: seq<Frame>)
    requires forall i :: 0 <= i < |frames| ==> SafeFrame(frames[i])
    ensures Decoded(Utf8.OfString(PrintedAll(frames))) == Ok(EventsOf(frames))
  {
    hide SplitLines, RunLines, RunTexts, AllLines, SafeFrame;
    LinesAreSafe(frames);
    FramesPrint(frames);
    TerminatedSplits(AllLines(frames));
    RunTextLines(NO_FIELDS, AllLines(frames));
    FramesRun(frames);
    assert EventsOf(frames) + [] == EventsOf(frames);
  }

  lemma SafeLineKept(s: string)
    requires LineSafe(s)
    ensures RunLines(NO_FIELDS, [Utf8.OfString("data: " + s)]) == Ok((Fields(None, [s]), []))
  {
    hide RunLines, AfterLine, StripCr, LineSafe, Utf8.OfString;
    var line := "data: " + s;
    OneLine(NO_FIELDS, Utf8.OfString(line));
    assert LineSafe(line) by { DataSafe(s); }
    SafeLineBytes(line);
    Utf8.StringOfBytes(line);
    DataLine(NO_FIELDS, s);
    assert [] + [s] == [s];
  }

  lemma DataSafe(s: string)
    requires LineSafe(s)
    ensures LineSafe("data: " + s)
  {
    PrefixSafe("data: ", s);
  }

  lemma TrailingCrCut(front: string)
    ensures RunLines(NO_FIELDS, [Utf8.OfString("data: " + front + "\r")]) == Ok((Fields(None, [front]), []))
  {
    hide RunLines, AfterLine, Utf8.OfString;
    var line := "data: " + front;
    OneLine(NO_FIELDS, Utf8.OfString(line + "\r"));
    Utf8.OfStringConcat(line, "\r");
    ByteOfChar('\r');
    assert Utf8.OfString("\r") == [CR];
    assert StripCr(Utf8.OfString(line + "\r")) == Utf8.OfString(line);
    Utf8.StringOfBytes(line);
    DataLine(NO_FIELDS, front);
    assert [] + [front] == [front];
  }

  function DecodedLine(s: string): Result<(Fields, seq<SseEvent>)> {
    RunLines(NO_FIELDS, [Utf8.OfString("data: " + s)])
  }

  lemma CutIsDifferent(s: string)
    requires s != "" && s[|s| - 1] == '\r'
    ensures DecodedLine(s) == Ok((Fields(None, [s[..|s| - 1]]), []))
    ensures [s[..|s| - 1]] != [s]
  {
    hide RunLines, Utf8.OfString;
    var front := s[..|s| - 1];
    TrailingCrCut(front);
    assert s == front + "\r";
    assert "data: " + (front + "\r") == "data: " + front + "\r";
    assert [front][0] != [s][0];
  }

  /** A data line without line feeds is read back exactly when it does not end in a carriage return. */
  lemma LineSurvives(s: string)
    requires '\n' !in s
    ensures DecodedLine(s) == Ok((Fields(None, [s]), [])) <==> (s == "" || s[|s| - 1] != '\r')
  {
    hide RunLines, Utf8.OfString;
    if s == "" || s[|s| - 1] != '\r' {
      SafeLineKept(s);
    } else {
      hide DecodedLine;
      CutIsDifferent(s);
    }
  }

  // --------------------------------------------------------- other field lines

  /** What a line of a named field means: names and data are kept, every other field is ignored. */
  ghost predicate Means(f: Fields, field: string, value: string, after: Fields) {
    && (field == "event" ==> after == Fields(Some(value), f.data))
    && (field == "data" ==> after == Fields(f.event, f.data + [value]))
    && (field != "event" && field != "data" ==> after == f)
  }

  /**
   * A line is a field and a value: one space after the colon is not part of the value, a
   * line without a colon has an empty value, and a line that starts with one is a comment.
   */
  lemma LineIsRead(f: Fields, field: string, value: string)
    requires field != "" && ':' !in field
    ensures Means(f, field, value, AfterLine(f, field + ": " + value).0) && AfterLine(f, field + ": " + value).1 == []
    ensures !(" " <= value) ==> AfterLine(f, field + ":" + value) == AfterLine(f, field + ": " + value)
    ensures Means(f, field, "", AfterLine(f, field).0) && AfterLine(f, field).1 == []
    ensures AfterLine(f, ":" + value) == (f, [])
  {
    FieldLine(field, value);
    FieldLine(field, "");
    if !(" " <= value) {
      TightLine(field, value);
    }
    BareLine(field);
    assert (field + ": " + value)[0] == field[0] && (field + ":" + value)[0] == field[0];
  }

  lemma TightLine(field: string, value: string)
    requires field != "" && ':' !in field && !(" " <= value)
    ensures SplitField(field + ":" + value) == (field, value)
  {
    var line := field + ":" + value;
    assert line[|field|] == ':' && forall k :: 0 <= k < |field| ==> line[k] == field[k];
    assert Position(line, ':') == Some(|field|);
    assert line[..|field|] == field && line[|field| + 1..] == value;
  }

  lemma BareLine(field: string)
    requires ':' !in field
    ensures SplitField(field) == (field, "")
  {
  }

  /** An event that the stream breaks off, even inside its last line, still counts. */
  lemma BrokenOffEventCounts(frames: seq<Frame>, value: string, crs: string)
    requires (forall i :: 0 <= i < |frames| ==> SafeFrame(frames[i])) && LineSafe(value)
    requires forall i :: 0 <= i < |crs| ==> crs[i] == '\r'
    ensures Decoded(Utf8.OfString(PrintedAll(frames) + ("data: " + value + crs)))
            == Ok(EventsOf(frames) + [SseEvent("message", value)])
  {
    hide SplitLines, RunLines, RunTexts, AllLines, SafeFrame, AfterLine, Utf8.OfString;
    var line := "data: " + value;
    var rest := Utf8.OfString(line + crs);
    LinesAreSafe(frames);
    FramesPrint(frames);
    TerminatedSplits(AllLines(frames));
    RunTextLines(NO_FIELDS, AllLines(frames));
    FramesRun(frames);
    Utf8.OfStringConcat(PrintedAll(frames), line + crs);
    UnfinishedBytes(line, crs) by { DataSafe(value); }
    SplitContinues(Utf8.OfString(PrintedAll(frames)), rest);
    assert [] + rest == rest;
    SplitNone(rest);
    assert LineBytes(AllLines(frames)) + [] == LineBytes(AllLines(frames));
    CrsTrimmed(line, crs) by { DataSafe(value); }
    Utf8.StringOfBytes(line + crs);
    DataLine(NO_FIELDS, value);
    assert [] + [value] == [value];
    assert Joined([value]) == value;
    assert [] + [SseEvent("message", value)] == [SseEvent("message", value)];
  }

  lemma UnfinishedBytes(line: string, crs: string)
    requires '\n' !in line && line != "" && forall i :: 0 <= i < |crs| ==> crs[i] == '\r'
    ensures LF !in Utf8.OfString(line + crs) && Utf8.OfString(line + crs) != []
  {
    if LF in Utf8.OfString(line + crs) {
      AsciiByteIsChar(line + crs, '\n');
    }
  }

  lemma {:induction false} CrsTrimmed(line: string, crs: string)
    requires LineSafe(line) && forall i :: 0 <= i < |crs| ==> crs[i] == '\r'
    ensures TrimCrs(line + crs) == line
    decreases |crs|
  {
    if crs == "" {
      assert line + crs == line;
    } else {
      var front := crs[..|crs| - 1];
      assert (line + crs)[..|line + crs| - 1] == line + front;
      CrsTrimmed(line, front);
    }
  }
}
