/** The text/event-stream form of the event log: the frames the server prints, and the line parser
    of sections 9.2.5 and 9.2.6 of the WHATWG HTML Living Standard that a client reads them with. */
module EventStream {
  import opened Wrappers
  import opened PythonText
  import opened SequencedLog
  import opened Sequences

  // ---------------------------------------------------------------------------
  // Events
  // ---------------------------------------------------------------------------

  datatype EventKind =
    | InvestigationStarted | AgentReady | Thought | ToolCall | ToolResult | Remark | StateDiff
    | EvaluatorVerdict | ChatFromUser | ChatAck | SummarySubmitted | Warning | Failure | Heartbeat
    | InvestigationFinished

  function KindName(kind: EventKind): string {
    match kind
    case InvestigationStarted => "investigation_started"
    case AgentReady => "agent_ready"
    case Thought => "thought"
    case ToolCall => "tool_call"
    case ToolResult => "tool_result"
    case Remark => "message"
    case StateDiff => "state_diff"
    case EvaluatorVerdict => "evaluator_verdict"
    case ChatFromUser => "chat_from_user"
    case ChatAck => "chat_ack"
    case SummarySubmitted => "summary_submitted"
    case Warning => "warning"
    case Failure => "error"
    case Heartbeat => "heartbeat"
    case InvestigationFinished => "investigation_finished"
  }

  /** The reader's side: the kind behind a wire name. */
  function KindOf(name: string): Option<EventKind> {
    if name == "investigation_started" then Some(InvestigationStarted)
    else if name == "agent_ready" then Some(AgentReady)
    else if name == "thought" then Some(Thought)
    else if name == "tool_call" then Some(ToolCall)
    else if name == "tool_result" then Some(ToolResult)
    else if name == "message" then Some(Remark)
    else if name == "state_diff" then Some(StateDiff)
    else if name == "evaluator_verdict" then Some(EvaluatorVerdict)
    else if name == "chat_from_user" then Some(ChatFromUser)
    else if name == "chat_ack" then Some(ChatAck)
    else if name == "summary_submitted" then Some(SummarySubmitted)
    else if name == "warning" then Some(Warning)
    else if name == "error" then Some(Failure)
    else if name == "heartbeat" then Some(Heartbeat)
    else if name == "investigation_finished" then Some(InvestigationFinished)
    else None
  }

  lemma KindRoundTrip(kind: EventKind)
    ensures KindOf(KindName(kind)) == Some(kind)
  {
  }

  predicate IsLineEnd(c: char) { c == '\n' || c == '\r' }

  predicate OneLine(s: string) { forall i :: 0 <= i < |s| ==> !IsLineEnd(s[i]) }

  /** What `json.dumps` without an indent produces: text on one line. */
  type Line = s: string | OneLine(s) witness ""

  datatype EventBody = EventBody(kind: EventKind, payload: Line)

  type Event = Entry<EventBody>

  // ---------------------------------------------------------------------------
  // Printer
  // ---------------------------------------------------------------------------

  datatype Chunk = Frame(event: Event) | KeepAlive

  /** The three field lines of one frame. */
  function FieldLines(e: Event): string {
    "id: " + Decimal(e.number) + "\n"
    + ("event: " + KindName(e.body.kind) + "\n" + ("data: " + e.body.payload + "\n"))
  }

  /** A frame or comment without the blank line that ends it. */
  function Body(chunk: Chunk): string {
    if chunk.Frame? then FieldLines(chunk.event) else ": keepalive\n"
  }

  function Print(chunk: Chunk): string {
    Body(chunk) + "\n"
  }

  function Render(chunks: seq<Chunk>): string {
    Flatten(Map(Print, chunks))
  }

  function EventsOf(chunks: seq<Chunk>): seq<Event> {
    if chunks == [] then []
    else (if chunks[0].Frame? then [chunks[0].event] else []) + EventsOf(chunks[1..])
  }

  function Frames(events: seq<Event>): (chunks: seq<Chunk>)
    ensures EventsOf(chunks) == events
  {
    if events == [] then []
    else
      assert ([Frame(events[0])] + Frames(events[1..]))[1..] == Frames(events[1..]);
      [Frame(events[0])] + Frames(events[1..])
  }

  lemma {:induction false} EventsOfConcat(a: seq<Chunk>, b: seq<Chunk>)
    ensures EventsOf(a + b) == EventsOf(a) + EventsOf(b)
  {
    if a == [] {
      assert a + b == b;
    } else {
      assert (a + b)[0] == a[0] && (a + b)[1..] == a[1..] + b;
      EventsOfConcat(a[1..], b);
    }
  }

  // ---------------------------------------------------------------------------
  // Parser
  // ---------------------------------------------------------------------------

  datatype Message = Message(lastEventId: string, kind: string, data: string)

  /** `line` is the unfinished line; `data`, `kind` and `id` are the standard's three buffers;
      `lastEventId` is the last event ID string of the event source object. */
  datatype Parser = Parser(line: string, afterCr: bool, data: string, kind: string, id: string,
                           lastEventId: string, heard: seq<Message>)

  /** A new stream: section 9.2.6 starts every buffer empty, but the event source keeps its last
      event ID string from the previous stream. */
  function NewStream(lastEventId: string): Parser {
    Parser("", false, "", "", "", lastEventId, [])
  }

  function FirstColon(line: string): (k: nat)
    ensures k <= |line| && (k < |line| ==> line[k] == ':')
  {
    if line == "" || line[0] == ':' then 0 else 1 + FirstColon(line[1..])
  }

  function Field(p: Parser, name: string, value: string): Parser {
    if name == "event" then p.(kind := value)
    else if name == "data" then p.(data := p.data + value + "\n")
    else if name == "id" then (if '\0' in value then p else p.(id := value))
    else p
  }

  function Dispatch(p: Parser): Parser {
    var q := p.(lastEventId := p.id, data := "", kind := "");
    if p.data == "" then q
    else
      var data := if p.data[|p.data| - 1] == '\n' then p.data[..|p.data| - 1] else p.data;
      q.(heard := p.heard + [Message(p.id, if p.kind == "" then "message" else p.kind, data)])
  }

  function EndLine(p: Parser): Parser {
    var line := p.line;
    var q := p.(line := "");
    var k := FirstColon(line);
    if line == "" then Dispatch(q)
    else if line[0] == ':' then q
    else if k < |line| then
      Field(q, line[..k], if k + 1 < |line| && line[k + 1] == ' ' then line[k + 2..] else line[k + 1..])
    else Field(q, line, "")
  }

  function Step(p: Parser, c: char): Parser {
    if c == '\n' && p.afterCr then p.(afterCr := false)
    else if IsLineEnd(c) then EndLine(p).(afterCr := c == '\r')
    else p.(line := p.line + [c], afterCr := false)
  }

  function Feed(p: Parser, text: string): Parser
    decreases text
  {
    if text == "" then p else Feed(Step(p, text[0]), text[1..])
  }

  // ---------------------------------------------------------------------------
  // Reading one line at a time
  // ---------------------------------------------------------------------------

  lemma {:induction false} FeedConcat(p: Parser, a: string, b: string)
    ensures Feed(p, a + b) == Feed(Feed(p, a), b)
    decreases a
  {
    if a == "" {
      assert a + b == b;
    } else {
      assert (a + b)[0] == a[0] && (a + b)[1..] == a[1..] + b;
      FeedConcat(Step(p, a[0]), a[1..], b);
    }
  }

  lemma {:induction false} FeedLine(p: Parser, line: string)
    requires OneLine(line) && !p.afterCr
    ensures Feed(p, line) == p.(line := p.line + line)
    decreases line
  {
    if line == "" {
      assert p.line + line == p.line;
    } else {
      FeedLine(Step(p, line[0]), line[1..]);
      assert p.line + [line[0]] + line[1..] == p.line + line;
    }
  }

  lemma FeedWholeLine(p: Parser, line: string)
    requires OneLine(line) && !p.afterCr && p.line == ""
    ensures Feed(p, line + "\n") == EndLine(p.(line := line))
  {
    FeedConcat(p, line, "\n");
    FeedLine(p, line);
    assert p.line + line == line;
    var q := p.(line := line);
    assert Feed(q, "\n") == Feed(Step(q, '\n'), "");
  }

  lemma {:induction false} FirstColonAfter(name: string, rest: string)
    requires ':' !in name
    ensures FirstColon(name + ":" + rest) == |name|
  {
    var s := name + ":" + rest;
    if name == "" {
      assert s[0] == ':';
    } else {
      assert s[0] == name[0] && s[1..] == name[1..] + ":" + rest;
      FirstColonAfter(name[1..], rest);
    }
  }

  /** A printed `name: value` line sets the field to exactly `value`. */
  lemma FeedField(p: Parser, name: string, value: string)
    requires OneLine(name) && name != "" && ':' !in name && OneLine(value)
    requires !p.afterCr && p.line == ""
    ensures Feed(p, name + ": " + value + "\n") == Field(p, name, value)
  {
    var line := name + ": " + value;
    assert line == name + ":" + (" " + value);
    FirstColonAfter(name, " " + value);
    FeedWholeLine(p, line);
    assert line[..|name|] == name && line[|name| + 1] == ' ' && line[|name| + 2..] == value;
    assert p.(line := "") == p;
  }

  /** Between two chunks the parser holds no unfinished line and no unfinished event. */
  ghost predicate AtRest(p: Parser) {
    p.line == "" && !p.afterCr && p.data == "" && p.kind == ""
  }

  function Printed(e: Event): Message {
    Message(Decimal(e.number), KindName(e.body.kind), e.body.payload)
  }

  function Messages(events: seq<Event>): (r: seq<Message>)
    ensures |r| == |events| && forall i :: 0 <= i < |r| ==> r[i] == Printed(events[i])
  {
    if events == [] then [] else [Printed(events[0])] + Messages(events[1..])
  }

  /** What a reader takes a message for. */
  function ReadMessage(m: Message): Option<Event> {
    var number, kind := ParseInt(m.lastEventId), KindOf(m.kind);
    if number.Some? && kind.Some? && OneLine(m.data) then Some(Entry(number.value, EventBody(kind.value, m.data)))
    else None
  }

  function ReadMessages(messages: seq<Message>): Option<seq<Event>> {
    if messages == [] then Some([])
    else
      var first, rest := ReadMessage(messages[0]), ReadMessages(messages[1..]);
      if first.Some? && rest.Some? then Some([first.value] + rest.value) else None
  }

  /** Number, kind and payload of every event can be read off its message. */
  lemma {:induction false} MessagesRead(events: seq<Event>)
    ensures ReadMessages(Messages(events)) == Some(events)
  {
    if events != [] {
      var e := events[0];
      DecimalRoundTrip(e.number);
      KindRoundTrip(e.body.kind);
      MessagesRead(events[1..]);
      assert Messages(events)[1..] == Messages(events[1..]);
      assert events == [e] + events[1..];
    }
  }

  /** What a whole chunk does to a parser at rest. */
  function Hear(p: Parser, chunk: Chunk): Parser {
    match chunk
    case Frame(e) =>
      p.(id := Decimal(e.number), lastEventId := Decimal(e.number), heard := p.heard + [Printed(e)])
    case KeepAlive => p.(lastEventId := p.id)
  }

  lemma KindNameOneLine(kind: EventKind)
    ensures KindName(kind) != "" && OneLine(KindName(kind))
  {
    KindNamesStart(kind);
    KindNamesMiddle(kind);
    KindNamesEnd(kind);
  }

  lemma KindNamesStart(kind: EventKind)
    ensures kind.InvestigationStarted? || kind.AgentReady? || kind.Thought? || kind.ToolCall? || kind.ToolResult?
            ==> KindName(kind) != "" && OneLine(KindName(kind))
  {
  }

  lemma KindNamesMiddle(kind: EventKind)
    ensures kind.Remark? || kind.StateDiff? || kind.EvaluatorVerdict? || kind.ChatFromUser? || kind.ChatAck?
            ==> KindName(kind) != "" && OneLine(KindName(kind))
  {
  }

  lemma KindNamesEnd(kind: EventKind)
    ensures kind.SummarySubmitted? || kind.Warning? || kind.Failure? || kind.Heartbeat? || kind.InvestigationFinished?
            ==> KindName(kind) != "" && OneLine(KindName(kind))
  {
  }

  lemma FeedFieldLines(p: Parser, e: Event)
    requires AtRest(p)
    ensures Feed(p, FieldLines(e))
         == p.(id := Decimal(e.number), kind := KindName(e.body.kind), data := e.body.payload + "\n")
  {
    var id, kind, payload := Decimal(e.number), KindName(e.body.kind), e.body.payload;
    var l1, l2, l3 := "id: " + id + "\n", "event: " + kind + "\n", "data: " + payload + "\n";
    FeedConcat(p, l1, l2 + l3);
    assert l1 == "id" + ": " + id + "\n";
    FeedField(p, "id", id);
    var p1 := p.(id := id);
    assert Feed(p, l1) == p1;
    FeedConcat(p1, l2, l3);
    assert l2 == "event" + ": " + kind + "\n";
    KindNameOneLine(e.body.kind);
    FeedField(p1, "event", kind);
    var p2 := p1.(kind := kind);
    assert Feed(p1, l2) == p2;
    assert l3 == "data" + ": " + payload + "\n";
    FeedField(p2, "data", payload);
    assert p2.data + payload + "\n" == payload + "\n";
  }

  lemma FeedBlankLine(p: Parser)
    requires p.line == "" && !p.afterCr
    ensures Feed(p, "\n") == Dispatch(p)
  {
    assert Feed(p, "\n") == Feed(Step(p, '\n'), "");
    assert p.(line := "") == p;
  }

  /** Nothing that was dispatched is ever taken back. */
  lemma {:induction false} HeardGrows(p: Parser, text: string)
    ensures p.heard <= Feed(p, text).heard
    decreases text
  {
    if text != "" {
      HeardGrows(Step(p, text[0]), text[1..]);
    }
  }

  lemma QuietPrefix(p: Parser, text: string, k: nat)
    requires k <= |text| && Feed(p, text).heard == p.heard
    ensures Feed(p, text[..k]).heard == p.heard
  {
    assert text == text[..k] + text[k..];
    FeedConcat(p, text[..k], text[k..]);
    HeardGrows(p, text[..k]);
    HeardGrows(Feed(p, text[..k]), text[k..]);
  }

  /** A whole chunk has its effect, and leaves the parser at rest. */
  lemma FeedChunk(p: Parser, chunk: Chunk)
    requires AtRest(p)
    ensures Feed(p, Print(chunk)) == Hear(p, chunk) && AtRest(Hear(p, chunk))
  {
    FeedBody(p, chunk);
  }

  /** The effect comes only with the blank line at the end of the chunk. */
  lemma FeedBody(p: Parser, chunk: Chunk)
    requires AtRest(p)
    ensures Feed(p, Print(chunk)) == Hear(p, chunk) && Feed(p, Body(chunk)).heard == p.heard
  {
    FeedConcat(p, Body(chunk), "\n");
    if chunk.Frame? {
      FeedFieldLines(p, chunk.event);
      KindNameOneLine(chunk.event.body.kind);
    } else {
      FeedWholeLine(p, ": keepalive");
      assert Body(chunk) == ": keepalive" + "\n";
      assert p.(line := "") == p;
    }
    FeedBlankLine(Feed(p, Body(chunk)));
  }

  /** A chunk cut before its end dispatches nothing. */
  lemma FeedPartOfChunk(p: Parser, chunk: Chunk, k: nat)
    requires AtRest(p) && k < |Print(chunk)|
    ensures Feed(p, Print(chunk)[..k]).heard == p.heard
  {
    FeedBody(p, chunk);
    assert Print(chunk)[..k] == Body(chunk)[..k];
    QuietPrefix(p, Body(chunk), k);
  }

  // ---------------------------------------------------------------------------
  // Reading a whole stream, or as much of it as arrived
  // ---------------------------------------------------------------------------

  /** What a list of whole chunks does to a parser at rest. */
  function HearAll(p: Parser, chunks: seq<Chunk>): Parser
    decreases chunks
  {
    if chunks == [] then p else HearAll(Hear(p, chunks[0]), chunks[1..])
  }

  lemma {:induction false} FeedRender(p: Parser, chunks: seq<Chunk>)
    requires AtRest(p)
    ensures Feed(p, Render(chunks)) == HearAll(p, chunks) && AtRest(HearAll(p, chunks))
    ensures HearAll(p, chunks).heard == p.heard + Messages(EventsOf(chunks))
    decreases chunks
  {
    if chunks != [] {
      MapCons(Print, chunks);
      FeedConcat(p, Print(chunks[0]), Render(chunks[1..]));
      FeedChunk(p, chunks[0]);
      FeedRender(Hear(p, chunks[0]), chunks[1..]);
      HeadMessage(p, chunks);
    }
  }

  lemma HeadMessage(p: Parser, chunks: seq<Chunk>)
    requires chunks != []
    ensures p.heard + Messages(EventsOf(chunks)) == Hear(p, chunks[0]).heard + Messages(EventsOf(chunks[1..]))
  {
    var rest := EventsOf(chunks[1..]);
    if chunks[0].Frame? {
      var m := [Printed(chunks[0].event)];
      Associative(p.heard, m, Messages(rest));
      assert ([chunks[0].event] + rest)[1..] == rest;
      assert Messages([chunks[0].event] + rest) == m + Messages(rest);
    } else {
      assert [] + rest == rest;
    }
  }

  /** The round trip: parsing what the printer printed gives back every event's id, type and data,
      in order and nothing else, whatever keep-alive comments stand between the frames. */
  lemma FrameRoundTrip(chunks: seq<Chunk>, lastEventId: string)
    ensures Feed(NewStream(lastEventId), Render(chunks)).heard == Messages(EventsOf(chunks))
    ensures ReadMessages(Feed(NewStream(lastEventId), Render(chunks)).heard) == Some(EventsOf(chunks))
  {
    MessagesRead(EventsOf(chunks));
    var p := NewStream(lastEventId);
    FeedRender(p, chunks);
    assert p.heard + Messages(EventsOf(chunks)) == Messages(EventsOf(chunks));
  }

  /** A stream cut anywhere yields exactly the events whose frames arrived whole; a half-sent
      frame is discarded. */
  lemma CutStream(p: Parser, chunks: seq<Chunk>, received: nat)
    requires AtRest(p) && received <= |Render(chunks)|
    ensures Feed(p, Render(chunks)[..received]).heard
         == p.heard + Messages(EventsOf(chunks[..WholePieces(Map(Print, chunks), received)]))
    ensures p.heard == [] ==>
              ReadMessages(Feed(p, Render(chunks)[..received]).heard)
              == Some(EventsOf(chunks[..WholePieces(Map(Print, chunks), received)]))
  {
    var arrived := EventsOf(chunks[..WholePieces(Map(Print, chunks), received)]);
    MessagesRead(arrived);
    assert [] + Messages(arrived) == Messages(arrived);
    var k := WholePieces(Map(Print, chunks), received);
    var whole, text := chunks[..k], Render(chunks)[..received];
    CutText(chunks, received, k);
    if k < |chunks| {
      var left := received - |Render(whole)|;
      assert text == Render(whole) + Print(chunks[k])[..left];
      FeedWholeAndPart(p, whole, chunks[k], left);
    } else {
      assert chunks[..k] == chunks;
      FeedRender(p, chunks);
    }
  }

  lemma CutText(chunks: seq<Chunk>, received: nat, k: nat)
    requires received <= |Render(chunks)| && k == WholePieces(Map(Print, chunks), received)
    ensures var left := received - |Render(chunks[..k])|;
            if k == |chunks| then Render(chunks)[..received] == Render(chunks)
            else 0 <= left < |Print(chunks[k])|
                 && Render(chunks)[..received] == Render(chunks[..k]) + Print(chunks[k])[..left]
  {
    MapTake(Print, chunks, k);
    CutPieces(Map(Print, chunks), received, k, Render(chunks), Render(chunks[..k]));
  }

  lemma CutPieces(pieces: seq<string>, received: nat, k: nat, text: string, whole: string)
    requires k == WholePieces(pieces, received) && text == Flatten(pieces) && whole == Flatten(pieces[..k])
    requires received <= |text|
    ensures if k == |pieces| then text[..received] == text
            else 0 <= received - |whole| < |pieces[k]| && text[..received] == whole + pieces[k][..received - |whole|]
  {
    Locate(pieces, received);
  }

  lemma EventsOfPrefix(chunks: seq<Chunk>, k: nat)
    requires k <= |chunks|
    ensures EventsOf(chunks[..k]) <= EventsOf(chunks)
  {
    EventsOfConcat(chunks[..k], chunks[k..]);
    assert chunks == chunks[..k] + chunks[k..];
  }

  lemma FeedWholeAndPart(p: Parser, whole: seq<Chunk>, next: Chunk, left: nat)
    requires AtRest(p) && left < |Print(next)|
    ensures Feed(p, Render(whole) + Print(next)[..left]).heard == p.heard + Messages(EventsOf(whole))
  {
    FeedRender(p, whole);
    FeedPartOfChunk(HearAll(p, whole), next, left);
    FeedConcat(p, Render(whole), Print(next)[..left]);
  }

  /** The last event ID string after whole chunks. Section 9.2.6 copies the id buffer into it at
      every blank line, and the buffer starts empty, so a connection that carries only keep-alive
      comments wipes it. It survives exactly when nothing was heard and no blank line came, or an
      event was heard, or there was nothing to lose. */
  lemma {:induction false} LastEventIdAfter(p: Parser, chunks: seq<Chunk>)
    requires AtRest(p)
    ensures var events := EventsOf(chunks);
            HearAll(p, chunks).lastEventId ==
              if chunks == [] then p.lastEventId
              else if events == [] then p.id
              else Decimal(events[|events| - 1].number)
    decreases chunks
  {
    if chunks != [] {
      var q := Hear(p, chunks[0]);
      LastEventIdAfter(q, chunks[1..]);
      if EventsOf(chunks[1..]) == [] {
        IdAfterFrame(q, chunks[1..]);
      } else {
        LastOfRest(chunks);
      }
    }
  }

  lemma LastOfRest(chunks: seq<Chunk>)
    requires chunks != [] && EventsOf(chunks[1..]) != []
    ensures EventsOf(chunks) != []
    ensures EventsOf(chunks)[|EventsOf(chunks)| - 1] == EventsOf(chunks[1..])[|EventsOf(chunks[1..])| - 1]
  {
  }

  lemma {:induction false} IdAfterFrame(p: Parser, chunks: seq<Chunk>)
    requires p.id == p.lastEventId && EventsOf(chunks) == []
    ensures HearAll(p, chunks).lastEventId == p.id
    decreases chunks
  {
    if chunks != [] {
      assert chunks[0].KeepAlive?;
      IdAfterFrame(Hear(p, chunks[0]), chunks[1..]);
    }
  }

  // ---------------------------------------------------------------------------
  // The last event ID string of a cut stream
  // ---------------------------------------------------------------------------

  function LinesText(lines: seq<string>): string {
    if lines == [] then "" else lines[0] + "\n" + LinesText(lines[1..])
  }

  predicate FullLines(lines: seq<string>) {
    forall i :: 0 <= i < |lines| ==> lines[i] != "" && OneLine(lines[i])
  }

  /** Only a blank line touches the last event ID string, so no part of full lines does. */
  lemma {:induction false} PartOfLines(p: Parser, lines: seq<string>, k: nat)
    requires FullLines(lines) && p.line == "" && !p.afterCr && k <= |LinesText(lines)|
    ensures Feed(p, LinesText(lines)[..k]).lastEventId == p.lastEventId
    decreases lines
  {
    if lines != [] {
      var line, rest := lines[0], LinesText(lines[1..]);
      var text := line + "\n" + rest;
      if k <= |line| {
        assert text[..k] == line[..k];
        FeedLine(p, line[..k]);
      } else {
        var left := k - |line| - 1;
        assert text[..k] == line + "\n" + rest[..left];
        FeedConcat(p, line + "\n", rest[..left]);
        FeedWholeLine(p, line);
        EndFullLine(p.(line := line));
        PartOfLines(EndLine(p.(line := line)), lines[1..], left);
      }
    }
  }

  lemma EndFullLine(p: Parser)
    requires p.line != "" && !p.afterCr
    ensures EndLine(p).lastEventId == p.lastEventId && EndLine(p).line == "" && !EndLine(p).afterCr
  {
  }

  function BodyLines(chunk: Chunk): seq<string> {
    match chunk
    case Frame(e) => ["id: " + Decimal(e.number), "event: " + KindName(e.body.kind), "data: " + e.body.payload]
    case KeepAlive => [": keepalive"]
  }

  lemma LinesCons(line: string, rest: seq<string>)
    ensures LinesText([line] + rest) == line + "\n" + LinesText(rest)
  {
    assert ([line] + rest)[1..] == rest;
  }

  lemma ThreeLines(a: string, b: string, c: string)
    ensures LinesText([a, b, c]) == a + "\n" + (b + "\n" + (c + "\n"))
  {
    LinesCons(a, [b, c]);
    LinesCons(b, [c]);
    LinesCons(c, []);
    assert [a] + [b, c] == [a, b, c] && [b] + [c] == [b, c] && [c] + [] == [c];
    assert LinesText([]) == "" && c + "\n" + "" == c + "\n";
  }

  lemma BodyIsLines(chunk: Chunk)
    ensures Body(chunk) == LinesText(BodyLines(chunk)) && FullLines(BodyLines(chunk))
  {
    match chunk
    case Frame(e) =>
      var id, kind, data := "id: " + Decimal(e.number), "event: " + KindName(e.body.kind), "data: " + e.body.payload;
      KindNameOneLine(e.body.kind);
      ThreeLines(id, kind, data);
      assert OneLine(id) && OneLine(kind) && OneLine(data);
    case KeepAlive =>
      LinesCons(": keepalive", []);
      assert [": keepalive"] + [] == [": keepalive"];
  }

  lemma PartOfChunkKeepsId(p: Parser, chunk: Chunk, k: nat)
    requires AtRest(p) && k < |Print(chunk)|
    ensures Feed(p, Print(chunk)[..k]).lastEventId == p.lastEventId
  {
    BodyIsLines(chunk);
    assert Print(chunk)[..k] == Body(chunk)[..k];
    PartOfLines(p, BodyLines(chunk), k);
  }

  /** The last event ID string of a stream cut anywhere is that of the chunks that arrived whole. */
  lemma CutStreamId(p: Parser, chunks: seq<Chunk>, received: nat)
    requires AtRest(p) && received <= |Render(chunks)|
    ensures Feed(p, Render(chunks)[..received]).lastEventId
         == HearAll(p, chunks[..WholePieces(Map(Print, chunks), received)]).lastEventId
  {
    var k := WholePieces(Map(Print, chunks), received);
    var whole := chunks[..k];
    CutText(chunks, received, k);
    FeedRender(p, whole);
    if k < |chunks| {
      var left := received - |Render(whole)|;
      FeedConcat(p, Render(whole), Print(chunks[k])[..left]);
      PartOfChunkKeepsId(HearAll(p, whole), chunks[k], left);
    } else {
      assert whole == chunks;
    }
  }

  /** The place of a client that heard these whole chunks: the id of the last event, or where it was. */
  function Place(events: seq<Event>, resumed: string): string {
    if events == [] then resumed else Decimal(events[|events| - 1].number)
  }

  /** A connection that carried whole keep-alive comments and no whole event wipes a place. */
  predicate Wipes(whole: seq<Chunk>, resumed: string) {
    whole != [] && EventsOf(whole) == [] && resumed != ""
  }

  /** Over a stream cut anywhere, the last event ID string that a standard client resumes with is the id
      of the last event it heard, exactly when the connection wipes nothing; otherwise it is empty. */
  lemma StandardClientKeepsItsPlace(chunks: seq<Chunk>, resumed: string, received: nat)
    requires received <= |Render(chunks)|
    ensures var whole := chunks[..WholePieces(Map(Print, chunks), received)];
            Feed(NewStream(resumed), Render(chunks)[..received]).lastEventId
            == if Wipes(whole, resumed) then "" else Place(EventsOf(whole), resumed)
  {
    CutStreamId(NewStream(resumed), chunks, received);
    LastEventIdAfter(NewStream(resumed), chunks[..WholePieces(Map(Print, chunks), received)]);
  }
}
