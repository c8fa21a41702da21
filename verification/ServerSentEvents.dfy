/**
 The event-stream frames printed by apps/hexis_api.py, and the parser a client runs on them:
 sections 9.2.5 and 9.2.6 of the WHATWG HTML Standard.
 */
module ServerSentEvents {
  import opened Prelude
  import Text = TextLines

  // ---------- Printing ----------

  datatype Frame =
    | Named(event: string, data: string)
    | Unnamed(data: string)
    | Keepalive

  function SseEvent(event: string, data: string): string {
    "event: " + event + "\ndata: " + data + "\n\n"
  }

  function OpenAiSseData(data: string): string {
    "data: " + data + "\n\n"
  }

  function Print(f: Frame): string {
    match f
    case Named(event, data) => SseEvent(event, data)
    case Unnamed(data) => OpenAiSseData(data)
    case Keepalive => ": keepalive\n\n"
  }

  function PrintAll(frames: seq<Frame>): string {
    if frames == [] then "" else Print(frames[0]) + PrintAll(frames[1..])
  }

  // ---------- Parsing ----------

  datatype Message = Message(event: string, data: string)

  predicate EndsLine(c: char) {
    c == '\n' || c == '\r'
  }

  /** The terminated lines of a stream; an unterminated rest takes part in no event. */
  function Lines(s: string): seq<string> {
    Text.SplitAt(EndsLine, false, s)
  }

  /** The buffers of the standard's interpreter, and the messages dispatched. */
  datatype Parser = Parser(event: string, data: string, messages: seq<Message>)

  function Dispatch(p: Parser): Parser {
    if p.data == "" then Parser("", "", p.messages)
    else
      var message := Message(if p.event == "" then "message" else p.event, p.data[..|p.data| - 1]);
      Parser("", "", p.messages + [message])
  }

  /** The id and retry fields touch neither the type nor the data of a message. */
  function ProcessField(p: Parser, field: string, value: string): Parser {
    if field == "event" then p.(event := value)
    else if field == "data" then p.(data := p.data + value + "\n")
    else p
  }

  /** The index of the first colon, or the length of the line. */
  function Colon(line: string): (i: nat)
    ensures i <= |line|
    ensures forall j | 0 <= j < i :: line[j] != ':'
    ensures i < |line| ==> line[i] == ':'
  {
    if line == "" || line[0] == ':' then 0 else 1 + Colon(line[1..])
  }

  function ProcessLine(p: Parser, line: string): Parser {
    if line == "" then Dispatch(p)
    else if line[0] == ':' then p
    else
      var i := Colon(line);
      if i == |line| then ProcessField(p, line, "")
      else
        var value := line[i + 1..];
        ProcessField(p, line[..i], if value != "" && value[0] == ' ' then value[1..] else value)
  }

  function ProcessLines(p: Parser, lines: seq<string>): Parser
    decreases |lines|
  {
    if lines == [] then p else ProcessLines(ProcessLine(p, lines[0]), lines[1..])
  }

  const BYTE_ORDER_MARK: char := '\U{FEFF}'

  function Parse(stream: string): seq<Message> {
    var body := if stream != "" && stream[0] == BYTE_ORDER_MARK then stream[1..] else stream;
    ProcessLines(Parser("", "", []), Lines(body)).messages
  }

  // ---------- Round trip ----------

  /** Free of the characters that end a line, as every JSON encoding is. */
  predicate OneLine(s: string) {
    Text.OneLine(s, EndsLine)
  }

  predicate Printable(f: Frame) {
    match f
    case Named(event, data) => OneLine(event) && event != "" && OneLine(data)
    case Unnamed(data) => OneLine(data)
    case Keepalive => true
  }

  function Meaning(f: Frame): seq<Message> {
    match f
    case Named(event, data) => [Message(event, data)]
    case Unnamed(data) => [Message("message", data)]
    case Keepalive => []
  }

  function Meanings(frames: seq<Frame>): seq<Message> {
    if frames == [] then [] else Meaning(frames[0]) + Meanings(frames[1..])
  }

  lemma {:induction false} ProcessConcat(p: Parser, a: seq<string>, b: seq<string>)
    ensures ProcessLines(p, a + b) == ProcessLines(ProcessLines(p, a), b)
    decreases |a|
  {
    if a == [] {
      assert a + b == b;
    } else {
      assert (a + b)[1..] == a[1..] + b;
      ProcessConcat(ProcessLine(p, a[0]), a[1..], b);
    }
  }

  lemma ProcessOne(p: Parser, a: string)
    ensures ProcessLines(p, [a]) == ProcessLine(p, a)
  {
    assert [a][1..] == [];
    assert ProcessLines(ProcessLine(p, a), []) == ProcessLine(p, a);
  }

  lemma ProcessTwo(p: Parser, a: string, b: string)
    ensures ProcessLines(p, [a, b]) == ProcessLine(ProcessLine(p, a), b)
  {
    assert [a, b][1..] == [b];
    ProcessOne(ProcessLine(p, a), b);
  }

  function Field(name: string, value: string): string {
    name + ": " + value
  }

  /** A field line as the printer writes it. */
  lemma FieldLine(p: Parser, name: string, value: string)
    requires name == "event" || name == "data"
    ensures ProcessLine(p, Field(name, value)) == ProcessField(p, name, value)
  {
    var line := Field(name, value);
    assert line[|name|] == ':' && line[0] == name[0];
    assert forall j | 0 <= j < |name| :: line[j] == name[j] && name[j] != ':';
    assert Colon(line) == |name|;
    assert line[..|name|] == name;
    assert line[|name| + 1..] == " " + value;
    assert (" " + value)[1..] == value;
  }

  function FrameLines(f: Frame): seq<string> {
    match f
    case Named(event, data) => [Field("event", event)] + [Field("data", data), ""]
    case Unnamed(data) => [Field("data", data), ""]
    case Keepalive => [": keepalive", ""]
  }

  lemma UnlinesTwo(line: string)
    ensures Text.Unlines([line, ""]) == line + "\n\n"
  {
    assert [line, ""][1..] == [""] && [""][1..] == [];
    assert Text.Unlines([""]) == "" + "\n" + Text.Unlines([]) == "\n";
    assert line + "\n" + "\n" == line + "\n\n";
  }

  lemma PrintedLines(f: Frame)
    requires match f case Named(event, data) => OneLine(event) && OneLine(data)
                     case Unnamed(data) => OneLine(data) case Keepalive => true
    ensures Print(f) == Text.Unlines(FrameLines(f))
    ensures Text.AllOneLine(FrameLines(f), EndsLine)
  {
    match f
    case Named(event, data) =>
      PrintedEvent(event, data);
    case Unnamed(data) =>
      PrintedData(data);
    case Keepalive =>
      UnlinesTwo(": keepalive");
  }

  lemma PrintedData(data: string)
    ensures OpenAiSseData(data) == Text.Unlines([Field("data", data), ""])
    ensures OneLine(data) ==> OneLine(Field("data", data))
  {
    UnlinesTwo(Field("data", data));
    assert "data" + ": " == "data: ";
  }

  lemma PrintedEvent(event: string, data: string)
    ensures SseEvent(event, data) == Text.Unlines([Field("event", event)] + [Field("data", data), ""])
    ensures OneLine(event) ==> OneLine(Field("event", event))
    ensures OneLine(data) ==> OneLine(Field("data", data))
  {
    var first, rest := Field("event", event), [Field("data", data), ""];
    PrintedData(data);
    Text.UnlinesConcat([first], rest);
    assert [first][1..] == [] && Text.Unlines([first]) == first + "\n" + "";
    assert "event" + ": " == "event: ";
    SplitFrame(event, data);
  }

  lemma SplitFrame(event: string, data: string)
    ensures SseEvent(event, data) == "event: " + event + "\n" + OpenAiSseData(data)
  {
    assert "\n" + "data: " == "\ndata: ";
  }

  /** A line that fills the data buffer and the blank line after it dispatch a message. */
  lemma DataMeans(p: Parser, line: string, data: string)
    requires p.data == "" && ProcessLine(p, line) == ProcessField(p, "data", data)
    ensures ProcessLines(p, [line, ""])
      == Parser("", "", p.messages + [Message(if p.event == "" then "message" else p.event, data)])
  {
    ProcessTwo(p, line, "");
    var q := p.(data := data + "\n");
    assert p.data + data + "\n" == q.data;
    assert q.data != "" && q.data[..|q.data| - 1] == data;
    assert ProcessLine(q, "") == Dispatch(q);
  }

  /** A frame's lines dispatch its message; an empty name is read as the default one. */
  lemma FrameMeans(f: Frame, messages: seq<Message>)
    ensures ProcessLines(Parser("", "", messages), FrameLines(f))
      == Parser("", "", messages +
           if f.Named? && f.event == "" then [Message("message", f.data)] else Meaning(f))
  {
    var p := Parser("", "", messages);
    match f
    case Named(event, data) =>
      var first, second := Field("event", event), Field("data", data);
      var q := p.(event := event);
      ProcessConcat(p, [first], [second, ""]);
      FieldLine(p, "event", event);
      ProcessOne(p, first);
      FieldLine(q, "data", data);
      DataMeans(q, second, data);
      assert FrameLines(f) == [first] + [second, ""];
    case Unnamed(data) =>
      FieldLine(p, "data", data);
      DataMeans(p, Field("data", data), data);
    case Keepalive =>
      ProcessTwo(p, ": keepalive", "");
      assert messages + [] == messages;
  }

  function AllLines(frames: seq<Frame>): seq<string> {
    if frames == [] then [] else FrameLines(frames[0]) + AllLines(frames[1..])
  }

  lemma {:induction false} AllPrintedLines(frames: seq<Frame>)
    requires forall i | 0 <= i < |frames| :: Printable(frames[i])
    ensures PrintAll(frames) == Text.Unlines(AllLines(frames))
    ensures Text.AllOneLine(AllLines(frames), EndsLine)
  {
    if frames != [] {
      PrintedLines(frames[0]);
      AllPrintedLines(frames[1..]);
      Text.UnlinesConcat(FrameLines(frames[0]), AllLines(frames[1..]));
    }
  }

  lemma {:induction false} AllMean(frames: seq<Frame>, messages: seq<Message>)
    requires forall i | 0 <= i < |frames| :: Printable(frames[i])
    ensures ProcessLines(Parser("", "", messages), AllLines(frames))
      == Parser("", "", messages + Meanings(frames))
    decreases |frames|
  {
    if frames == [] {
      assert messages + [] == messages;
    } else {
      var first, rest := frames[0], frames[1..];
      ProcessConcat(Parser("", "", messages), FrameLines(first), AllLines(rest));
      FrameMeans(first, messages);
      AllMean(rest, messages + Meaning(first));
      Assoc(messages, Meaning(first), Meanings(rest));
    }
  }

  /** No frame starts with a byte order mark. */
  lemma PrintStart(frames: seq<Frame>)
    ensures PrintAll(frames) == "" || PrintAll(frames)[0] != BYTE_ORDER_MARK
  {
    if frames != [] {
      var s := Print(frames[0]);
      assert s[0] == 'e' || s[0] == 'd' || s[0] == ':';
      assert PrintAll(frames) == s + PrintAll(frames[1..]);
    }
  }

  lemma ParseLines(stream: string, lines: seq<string>, messages: seq<Message>)
    requires stream == "" || stream[0] != BYTE_ORDER_MARK
    requires Lines(stream) == lines
    requires ProcessLines(Parser("", "", []), lines) == Parser("", "", messages)
    ensures Parse(stream) == messages
  {
  }

  /** Printing is invertible: a client reads back the frames' messages, comments dropped. */
  lemma RoundTrip(frames: seq<Frame>)
    requires forall i | 0 <= i < |frames| :: Printable(frames[i])
    ensures Parse(PrintAll(frames)) == Meanings(frames)
  {
    AllPrintedLines(frames);
    Text.SplitUnlines(EndsLine, false, AllLines(frames));
    AllMean(frames, []);
    PrintStart(frames);
    assert [] + Meanings(frames) == Meanings(frames);
    ParseLines(PrintAll(frames), AllLines(frames), Meanings(frames));
  }

  /** A name that is not empty is what keeps a named frame's type. */
  lemma NameSurvives(event: string, data: string)
    requires OneLine(event) && OneLine(data)
    ensures Parse(SseEvent(event, data)) == [Message(event, data)] <==> event != ""
  {
    var f := Named(event, data);
    PrintedLines(f);
    Text.SplitUnlines(EndsLine, false, FrameLines(f));
    FrameMeans(f, []);
    var m := if event == "" then Message("message", data) else Message(event, data);
    assert [] + [m] == [m] && [m][0] == m;
    assert SseEvent(event, data)[0] == 'e';
    ParseLines(SseEvent(event, data), FrameLines(f), [m]);
  }
}
