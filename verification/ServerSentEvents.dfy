/** The event stream that internal/server/server.go writes, one frame an event, and the
    parser that section 9.2.6 of the WHATWG HTML standard prescribes for its reader. */
module ServerSentEvents {
  import opened Wrappers
  import opened Automata
  import opened Events
  import Json

  // ----- Writing -----

  function Name(kind: EventType): string {
    match kind
    case Token => "token"
    case Tool => "tool"
    case Done => "done"
    case Error => "error"
  }

  /** A string that is empty is left out. */
  function Optional(key: string, value: string): seq<Json.Field> {
    if |value| == 0 then [] else [Json.Field(key, value)]
  }

  function FieldsOf(e: Event): seq<Json.Field> {
    [Json.Field("type", Name(e.kind))] +
    Optional("text", e.text) + Optional("tool", e.tool) + Optional("status", e.status)
  }

  function Line(name: string, value: string): string {
    name + [':', ' '] + value + ['\n']
  }

  function FrameOf(kind: string, data: string): string {
    Line("event", kind) + Line("data", data) + ['\n']
  }

  function Frame(e: Event): string {
    FrameOf(Name(e.kind), Json.Object(FieldsOf(e)))
  }

  function Stream(events: seq<Event>): string {
    if |events| == 0 then "" else Stream(events[..|events| - 1]) + Frame(events[|events| - 1])
  }

  /** The response body, as far as it is written, and the events that were written to it. */
  class Response {
    var body: string
    ghost var written: seq<Event>

    ghost predicate HoldsEvents()
      reads this
    {
      body == Stream(written)
    }

    constructor ()
      ensures body == "" && written == [] && HoldsEvents()
    {
      body, written := "", [];
    }

    /** Whatever has been emitted so far, the body reads as exactly that. */
    method WriteEvent(e: Event)
      modifies this
      ensures body == old(body) + Frame(e) && written == old(written) + [e]
      ensures old(HoldsEvents()) ==> HoldsEvents() && Carry(Parse(body), written)
    {
      var data := Json.Object(FieldsOf(e));
      body := body + FrameOf(Name(e.kind), data);
      written := written + [e];
      hide FrameOf, FieldsOf, Name, Parse, Carry;
      assert written[..|written| - 1] == old(written);
      StreamReadsBack(written);
    }

    /** The broker's answer when no budget is left. Its done frame carries no type. */
    method WriteDegrade()
      modifies this`body
      ensures body == old(body) + Degrade()
      ensures old(body) == "" ==> Carry(Parse(body), [ErrorEvent(Resting()), DONE])
    {
      body := body + ("event: error\ndata: " + RestingJson() + "\n\n");
      body := body + "event: done\ndata: {}\n\n";
      hide RestingJson, Parse, Carry;
      assert body == old(body) + Degrade();
      DegradeReadsBack();
      assert "" + Degrade() == Degrade();
    }
  }

  function Resting(): string {
    "The assistant is resting" + " for today \U{2014} check" + " back tomorrow, or" + " explore the dashboard."
  }

  function RestingJson(): string {
    "{\"type\":\"error\",\"text\":\"" + Resting() + "\"}"
  }

  function Degrade(): string {
    "event: error\ndata: " + RestingJson() + "\n\n" + "event: done\ndata: {}\n\n"
  }

  /** The broker writes its frames out by hand; they are frames like the agent's. */
  lemma DegradeIsTwoFrames()
    ensures Degrade() == FrameOf("error", RestingJson()) + FrameOf("done", "{}")
  {
    hide RestingJson;
    assert FrameOf("error", RestingJson()) == "event: error\ndata: " + RestingJson() + "\n\n";
    assert FrameOf("done", "{}") == "event: done\ndata: {}\n\n";
  }

  // ----- Reading -----

  datatype Message = Message(kind: string, data: string, id: string)

  /** `first` holds until a character has been read; `afterReturn` after a carriage return,
      which a line feed may complete. */
  datatype Parser = Parser(
    first: bool, afterReturn: bool, line: string, kind: string, data: string, id: string, received: seq<Message>)

  const START := Parser(true, false, "", "", "", "", [])

  function Dispatch(p: Parser): Parser {
    if |p.data| == 0 then p.(kind := "")
    else
      var data := if p.data[|p.data| - 1] == '\n' then p.data[..|p.data| - 1] else p.data;
      p.(kind := "", data := "",
         received := p.received + [Message(if |p.kind| == 0 then "message" else p.kind, data, p.id)])
  }

  function Process(p: Parser, name: string, value: string): Parser {
    if name == "event" then p.(kind := value)
    else if name == "data" then p.(data := p.data + value + ['\n'])
    else if name == "id" && '\0' !in value then p.(id := value)
    else p
  }

  function ColonAt(line: string): nat
    ensures ColonAt(line) <= |line|
  {
    if |line| == 0 then 0
    else
      var n := ColonAt(line[..|line| - 1]);
      if n < |line| - 1 || line[|line| - 1] == ':' then n else |line|
  }

  function EndLine(p: Parser): Parser {
    var line, q := p.line, p.(line := "");
    var n := ColonAt(line);
    if |line| == 0 then Dispatch(q)
    else if n == |line| then Process(q, line, "")
    else if n == 0 then q
    else if n + 1 < |line| && line[n + 1] == ' ' then Process(q, line[..n], line[n + 2..])
    else Process(q, line[..n], line[n + 1..])
  }

  function Step(p: Parser, c: char): Parser {
    if p.first && c == '\U{FEFF}' then p.(first := false)
    else if c == '\n' && p.afterReturn then p.(afterReturn := false)
    else if c == '\n' || c == '\r' then EndLine(p.(first := false)).(afterReturn := c == '\r')
    else p.(first := false, afterReturn := false, line := p.line + [c])
  }

  function Parse(text: string): seq<Message> {
    Feed(Step, START, text).received
  }

  function Kind(name: string): Option<EventType> {
    if name == "token" then Some(Token)
    else if name == "tool" then Some(Tool)
    else if name == "done" then Some(Done)
    else if name == "error" then Some(Error)
    else None
  }

  function Get(fields: map<string, string>, key: string): string {
    if key in fields then fields[key] else ""
  }

  /** The event a message carries: its kind is the message's, the rest comes from the JSON. */
  function EventOf(m: Message): Option<Event> {
    match (Kind(m.kind), Json.Decode(m.data))
    case (Some(kind), Some(fields)) =>
      Some(Event(kind, Get(fields, "text"), Get(fields, "tool"), Get(fields, "status")))
    case _ => None
  }

  // ----- One frame -----

  predicate NoBreak(s: string) {
    forall i :: 0 <= i < |s| ==> s[i] != '\n' && s[i] != '\r'
  }

  /** Between frames, and not after a carriage return. */
  predicate Rests(p: Parser) {
    !p.afterReturn && p.line == "" && p.kind == "" && p.data == ""
  }

  lemma {:induction false} ReadWithinLine(p: Parser, s: string)
    requires NoBreak(s) && |s| > 0 && !p.afterReturn && s[0] != '\U{FEFF}'
    ensures Feed(Step, p, s) == p.(first := false, line := p.line + s)
  {
    var front, last := s[..|s| - 1], s[|s| - 1];
    if |s| == 1 {
      FeedOne(Step, p, last);
      assert s == [last];
    } else {
      ReadWithinLine(p, front);
      assert p.line + s == p.line + front + [last];
    }
  }

  lemma {:induction false} ColonAtName(name: string, value: string)
    requires ':' !in name
    ensures ColonAt(name + [':', ' '] + value) == |name|
  {
    var line := name + [':', ' '] + value;
    var front := line[..|line| - 1];
    if |value| > 0 {
      ColonAtName(name, value[..|value| - 1]);
      assert front == name + [':', ' '] + value[..|value| - 1];
    } else {
      ColonAbsent(name);
      assert front == name + [':'] && front[..|front| - 1] == name;
    }
  }

  lemma {:induction false} ColonAbsent(name: string)
    requires ':' !in name
    ensures ColonAt(name) == |name|
  {
    if |name| > 0 {
      ColonAbsent(name[..|name| - 1]);
    }
  }

  lemma EndNamedLine(p: Parser, name: string, value: string)
    requires p.line == name + [':', ' '] + value && |name| > 0 && ':' !in name
    ensures EndLine(p) == Process(p.(line := ""), name, value)
  {
    hide Process, ColonAt;
    ColonAtName(name, value);
    assert p.line[..|name|] == name && p.line[|name| + 2..] == value;
  }

  lemma ReadLine(p: Parser, name: string, value: string)
    requires !p.afterReturn && p.line == ""
    requires NoBreak(name) && NoBreak(value) && |name| > 0 && ':' !in name && name[0] != '\U{FEFF}'
    ensures Feed(Step, p, Line(name, value)) == Process(p.(first := false), name, value)
  {
    hide EndLine, Process;
    var text := name + [':', ' '] + value;
    ReadWithinLine(p, text);
    var read := p.(first := false, line := text);
    assert p.line + text == text;
    EndNamedLine(read, name, value);
    FeedOne(Step, read, '\n');
    FeedConcat(Step, p, text, ['\n']);
    ProcessKeeps(p.(first := false), name, value);
  }

  lemma ProcessKeeps(p: Parser, name: string, value: string)
    ensures Process(p, name, value).(afterReturn := p.afterReturn) == Process(p, name, value)
  {
  }

  lemma ProcessFields(p: Parser, kind: string, data: string)
    requires p.data == ""
    ensures Process(p, "event", kind) == p.(kind := kind)
    ensures Process(p.(kind := kind), "data", data) == p.(kind := kind, data := data + ['\n'])
  {
    assert "event"[0] == 'e' && "data"[0] == 'd';
    assert p.data + data + ['\n'] == data + ['\n'];
  }

  lemma ReadBlank(p: Parser, data: string)
    requires !p.first && !p.afterReturn && p.line == "" && |p.kind| > 0 && p.data == data + ['\n']
    ensures Feed(Step, p, ['\n']) ==
            p.(kind := "", data := "", received := p.received + [Message(p.kind, data, p.id)])
  {
    FeedOne(Step, p, '\n');
    assert p.data[..|p.data| - 1] == data;
  }

  lemma ReadFrame(p: Parser, kind: string, data: string)
    requires Rests(p) && NoBreak(kind) && NoBreak(data) && |kind| > 0
    ensures Feed(Step, p, FrameOf(kind, data)) ==
            p.(first := false, received := p.received + [Message(kind, data, p.id)])
  {
    hide Line, Step, Process;
    ReadLine(p, "event", kind);
    ProcessFields(p.(first := false), kind, data);
    var named := p.(first := false, kind := kind);
    ReadLine(named, "data", data);
    var filled := named.(data := data + ['\n']);
    FeedConcat(Step, p, Line("event", kind), Line("data", data));
    ReadBlank(filled, data);
    FeedConcat(Step, p, Line("event", kind) + Line("data", data), ['\n']);
  }

  // ----- The whole stream -----

  function MessageOf(e: Event): Message {
    Message(Name(e.kind), Json.Object(FieldsOf(e)), "")
  }

  function Messages(events: seq<Event>): seq<Message> {
    if |events| == 0 then [] else Messages(events[..|events| - 1]) + [MessageOf(events[|events| - 1])]
  }

  lemma NameReads(kind: EventType)
    ensures Kind(Name(kind)) == Some(kind) && NoBreak(Name(kind)) && |Name(kind)| > 0
    ensures Name(Token) == "token" && Name(Tool) == "tool" && Name(Done) == "done" && Name(Error) == "error"
  {
  }

  lemma ObjectHasNoBreak(fields: seq<Json.Field>)
    ensures NoBreak(Json.Object(fields))
  {
    hide Json.Members;
    Json.MembersAreOneLine(fields);
    var text, members := Json.Object(fields), Json.Members(fields);
    forall i | 0 <= i < |text| ensures text[i] != '\n' && text[i] != '\r' {
      if 0 < i < |text| - 1 {
        assert text[i] == members[i - 1] && members[i - 1] in members;
      }
    }
  }

  lemma {:induction false} ParseStream(events: seq<Event>)
    ensures var p := Feed(Step, START, Stream(events));
            Rests(p) && p.id == "" && p.received == Messages(events)
  {
    if |events| > 0 {
      hide Step, Frame, Name, FieldsOf, Json.Object;
      var front, last := events[..|events| - 1], events[|events| - 1];
      ParseStream(front);
      NameReads(last.kind);
      ObjectHasNoBreak(FieldsOf(last));
      ReadEvent(Feed(Step, START, Stream(front)), last);
      FeedConcat(Step, START, Stream(front), Frame(last));
    }
  }

  lemma ReadEvent(p: Parser, e: Event)
    requires Rests(p) && p.id == ""
    ensures Feed(Step, p, Frame(e)) == p.(first := false, received := p.received + [MessageOf(e)])
  {
    hide FrameOf, FieldsOf, Name, Json.Object, Step, Feed;
    NameReads(e.kind);
    ObjectHasNoBreak(FieldsOf(e));
    ReadFrame(p, Name(e.kind), Json.Object(FieldsOf(e)));
  }

  lemma KeysDiffer()
    ensures "type" != "text" && "type" != "tool" && "type" != "status"
    ensures "text" != "tool" && "text" != "status" && "tool" != "status"
  {
    assert "type"[1] == 'y' && "tool"[1] == 'o' && "text"[1] == 'e' && "status"[1] == 't';
  }

  lemma {:induction false} FieldsConcat(a: seq<Json.Field>, b: seq<Json.Field>)
    ensures Json.Fields(a + b) == Overlaid(Json.Fields(a), b)
  {
    if |b| == 0 {
      assert a + b == a;
    } else {
      FieldsConcat(a, b[..|b| - 1]);
      assert (a + b)[..|a + b| - 1] == a + b[..|b| - 1];
    }
  }

  function Overlaid(fields: map<string, string>, more: seq<Json.Field>): map<string, string> {
    if |more| == 0 then fields
    else Overlaid(fields, more[..|more| - 1])[more[|more| - 1].key := more[|more| - 1].value]
  }

  lemma OptionalReads(fields: map<string, string>, key: string, value: string)
    requires key !in fields
    ensures var after := Overlaid(fields, Optional(key, value));
            && Get(after, key) == value && (key in after <==> value != "")
            && forall k :: k != key ==> (k in after <==> k in fields) && Get(after, k) == Get(fields, k)
  {
    var more := Optional(key, value);
    if |value| > 0 {
      assert more[..0] == [];
      assert Overlaid(fields, more[..0]) == fields;
    }
  }

  lemma FieldsRead(e: Event)
    ensures var fields := Json.Fields(FieldsOf(e));
            Get(fields, "type") == Name(e.kind) && Get(fields, "text") == e.text &&
            Get(fields, "tool") == e.tool && Get(fields, "status") == e.status
    ensures var keys := Json.Fields(FieldsOf(e)).Keys;
            && keys <= {"type", "text", "tool", "status"} && ("text" in keys <==> e.text != "")
            && ("tool" in keys <==> e.tool != "") && ("status" in keys <==> e.status != "")
  {
    hide Optional, Overlaid, Name;
    KeysDiffer();
    var head := [Json.Field("type", Name(e.kind))];
    assert head[..0] == [] && Json.Fields(head[..0]) == map[];
    var f0 := Json.Fields(head);
    assert f0 == map["type" := Name(e.kind)];
    OptionalReads(f0, "text", e.text);
    var f1 := Overlaid(f0, Optional("text", e.text));
    OptionalReads(f1, "tool", e.tool);
    var f2 := Overlaid(f1, Optional("tool", e.tool));
    OptionalReads(f2, "status", e.status);
    FieldsConcat(head, Optional("text", e.text));
    FieldsConcat(head + Optional("text", e.text), Optional("tool", e.tool));
    FieldsConcat(head + Optional("text", e.text) + Optional("tool", e.tool), Optional("status", e.status));
  }

  /** A message of the stream carries its event, and its JSON names the same type. */
  lemma MessageReads(e: Event)
    ensures EventOf(MessageOf(e)) == Some(e)
    ensures var fields := Json.Decode(MessageOf(e).data);
            && fields.Some? && fields.value.Keys <= {"type", "text", "tool", "status"}
            && ("text" in fields.value <==> e.text != "")
            && ("tool" in fields.value <==> e.tool != "")
            && ("status" in fields.value <==> e.status != "")
    ensures var fields := Json.Decode(MessageOf(e).data);
            fields.Some? && Get(fields.value, "type") == MessageOf(e).kind
  {
    hide Json.Object, Json.Decode, Json.Fields, FieldsOf;
    Json.ObjectReadsBack(FieldsOf(e));
    FieldsRead(e);
    NameReads(e.kind);
  }

  lemma {:induction false} MessagesAt(events: seq<Event>)
    ensures |Messages(events)| == |events|
    ensures forall i :: 0 <= i < |events| ==> Messages(events)[i] == MessageOf(events[i])
  {
    hide MessageOf;
    if |events| > 0 {
      MessagesAt(events[..|events| - 1]);
    }
  }

  predicate Carry(messages: seq<Message>, events: seq<Event>) {
    |messages| == |events| && forall i :: 0 <= i < |events| ==> EventOf(messages[i]) == Some(events[i])
  }

  /** Parsing the frames of any events, whatever text they hold, gives those events in order. */
  lemma {:induction false} StreamReadsBack(events: seq<Event>)
    ensures Carry(Parse(Stream(events)), events)
  {
    hide Feed, Stream, EventOf, MessageOf;
    ParseStream(events);
    MessagesAt(events);
    forall i | 0 <= i < |events| ensures EventOf(Messages(events)[i]) == Some(events[i]) {
      MessageReads(events[i]);
    }
  }

  lemma {:induction false} ReceivedGrows(p: Parser, text: string)
    ensures p.received <= Feed(Step, p, text).received
  {
    if |text| > 0 {
      ReceivedGrows(p, text[..|text| - 1]);
      StepGrows(Feed(Step, p, text[..|text| - 1]), text[|text| - 1]);
    }
  }

  lemma StepGrows(p: Parser, c: char)
    ensures p.received <= Step(p, c).received
  {
  }

  /** A connection cut anywhere, even inside a frame, gives the events up to that point and
      never a wrong one. */
  lemma {:induction false} CutStreamsReadAPrefix(events: seq<Event>, text: string)
    requires text <= Stream(events)
    ensures |Parse(text)| <= |events| && Carry(Parse(text), events[..|Parse(text)|])
  {
    hide EventOf, Step, Stream;
    StreamReadsBack(events);
    var rest := Stream(events)[|text|..];
    assert Stream(events) == text + rest;
    FeedConcat(Step, START, text, rest);
    ReceivedGrows(Feed(Step, START, text), rest);
  }

  // ----- The broker's degraded answer -----

  predicate Plain(s: string) {
    forall i :: 0 <= i < |s| ==> Json.EscapedChar(s[i]) == [s[i]]
  }

  lemma {:induction false} PlainIsVerbatim(s: string)
    requires Plain(s)
    ensures Json.Escaped(s) == s
  {
    hide Json.EscapedChar;
    if |s| > 0 {
      PlainIsVerbatim(s[..|s| - 1]);
    }
  }

  function ErrorFields(text: string): seq<Json.Field> {
    [Json.Field("type", "error"), Json.Field("text", text)]
  }

  predicate Ordinary(c: char) {
    ('(' <= c <= ';' || '?' <= c < '\\' || '\\' < c < '\U{2028}' || c == ' ')
  }

  lemma OrdinaryIsPlain(s: string)
    requires forall i :: 0 <= i < |s| ==> Ordinary(s[i])
    ensures Plain(s)
  {
  }

  lemma PlainConcat(a: string, b: string)
    requires Plain(a) && Plain(b)
    ensures Plain(a + b)
  {
  }

  lemma RestingIsPlain()
    ensures Plain(Resting())
  {
    hide Plain;
    OrdinaryIsPlain("The assistant is resting");
    OrdinaryIsPlain(" for today \U{2014} check");
    OrdinaryIsPlain(" back tomorrow, or");
    OrdinaryIsPlain(" explore the dashboard.");
    PlainConcat("The assistant is resting", " for today \U{2014} check");
    PlainConcat("The assistant is resting" + " for today \U{2014} check", " back tomorrow, or");
    PlainConcat("The assistant is resting" + " for today \U{2014} check" + " back tomorrow, or",
                " explore the dashboard.");
  }

  lemma WordsAreVerbatim()
    ensures Json.Escaped("type") == "type" && Json.Escaped("text") == "text" && Json.Escaped("error") == "error"
  {
    hide Json.Escaped, Plain;
    OrdinaryIsPlain("type");
    OrdinaryIsPlain("text");
    OrdinaryIsPlain("error");
    PlainIsVerbatim("type");
    PlainIsVerbatim("text");
    PlainIsVerbatim("error");
  }

  lemma TwoMembers(fields: seq<Json.Field>)
    requires |fields| == 2
    ensures Json.Members(fields) == Json.Member(fields[0]) + [','] + Json.Member(fields[1])
  {
    hide Json.Member;
    assert fields[..1] == [fields[0]];
  }

  lemma PlainMember(key: string, value: string)
    requires Json.Escaped(key) == key && Json.Escaped(value) == value
    ensures Json.Member(Json.Field(key, value)) == "\"" + key + "\":\"" + value + "\""
  {
    hide Json.Escaped;
  }

  lemma ErrorObjectText(text: string)
    requires Json.Escaped(text) == text
    ensures Json.Object(ErrorFields(text)) == "{\"type\":\"error\",\"text\":\"" + text + "\"}"
  {
    hide Json.Escaped, Json.Member, Json.Members;
    WordsAreVerbatim();
    PlainMember("type", "error");
    PlainMember("text", text);
    TwoMembers(ErrorFields(text));
  }

  lemma RestingJsonIsAnObject()
    ensures RestingJson() == Json.Object(ErrorFields(Resting()))
  {
    hide Resting, Json.Object, ErrorFields, Json.Escaped, Plain;
    RestingIsPlain();
    PlainIsVerbatim(Resting());
    ErrorObjectText(Resting());
  }

  lemma ErrorObjectReads(text: string)
    ensures EventOf(Message("error", Json.Object(ErrorFields(text)), "")) == Some(ErrorEvent(text))
  {
    hide Json.Object, Json.Decode;
    var fields := ErrorFields(text);
    Json.ObjectReadsBack(fields);
    KeysDiffer();
    NameReads(Error);
    assert fields[..1][..0] == [] && Json.Fields(fields[..1][..0]) == map[];
    assert Json.Fields(fields[..1]) == map["type" := "error"];
    assert Json.Fields(fields) == map["type" := "error", "text" := text];
  }

  lemma EmptyObjectReads()
    ensures EventOf(Message("done", "{}", "")) == Some(DONE)
  {
    hide Json.Decode;
    Json.ObjectReadsBack([]);
    NameReads(Done);
    assert Json.Object([]) == "{}";
  }

  /** The degraded answer reads like any reply: one error, then done. */
  lemma {:induction false} DegradeReadsBack()
    ensures Carry(Parse(Degrade()), [ErrorEvent(Resting()), DONE])
  {
    hide FrameOf, Feed, RestingJson, Resting, EventOf, ErrorFields, Degrade;
    RestingJsonIsAnObject();
    DegradeIsTwoFrames();
    NameReads(Error);
    NameReads(Done);
    ObjectHasNoBreak(ErrorFields(Resting()));
    ReadFrame(START, "error", RestingJson());
    var sent := Message("error", RestingJson(), "");
    assert START.received + [sent] == [sent];
    var p := START.(first := false, received := [sent]);
    ReadFrame(p, "done", "{}");
    FeedConcat(Step, START, FrameOf("error", RestingJson()), FrameOf("done", "{}"));
    assert Parse(Degrade()) == [Message("error", RestingJson(), ""), Message("done", "{}", "")];
    ErrorObjectReads(Resting());
    EmptyObjectReads();
  }
}
