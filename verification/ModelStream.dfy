/** One model call: `stream` of internal/agent/agent.go and `classifyModelError` of
    internal/agent/limits.go.

    The model is an oracle: call number `i` of a run plays out as `model(i)`, any finite
    sequence of chunks with any ending. Accumulating chunks into a message follows the
    SDK: a block starts empty, a text delta extends the last block, and a delta without
    a block (or any other chunk that does not fit) is an error. */
module ModelStream {
  import opened Events
  import opened Wrappers

  datatype BlockKind = TextBlock | ToolUse | OtherBlock

  datatype Block = Block(kind: BlockKind, id: string, name: string, text: string, input: string)

  datatype Usage = Usage(input: int, output: int, cacheRead: int, cacheCreation: int)

  datatype Message = Message(content: seq<Block>, stopReason: string, usage: Usage)

  const EMPTY := Message([], "", Usage(0, 0, 0, 0))

  datatype Chunk =
    | BlockStart(kind: BlockKind, id: string, name: string)
    | TextDelta(text: string)
    | InputDelta(json: string)
    | MessageDelta(stopReason: string, usage: Usage)
    | Unfit

  datatype Failure = Api(status: int) | Transport(contextDone: bool)

  datatype Ending = Complete | Failed(error: Failure)

  /** `cancelled`: the context ends while the agent waits to retry after this attempt. */
  datatype Attempt = Attempt(chunks: seq<Chunk>, ending: Ending, cancelled: bool)

  type Model = nat -> Attempt

  datatype RunError = Busy | Accumulating | Streaming(error: Failure)

  function Accumulate(m: Message, c: Chunk): Option<Message> {
    match c
    case BlockStart(kind, id, name) => Some(m.(content := m.content + [Block(kind, id, name, "", "")]))
    case TextDelta(text) =>
      if m.content == [] then None
      else
        var last := m.content[|m.content| - 1];
        Some(m.(content := m.content[|m.content| - 1 := last.(text := last.text + text)]))
    case InputDelta(json) =>
      if m.content == [] then None
      else
        var last := m.content[|m.content| - 1];
        Some(m.(content := m.content[|m.content| - 1 := last.(input := last.input + json)]))
    case MessageDelta(stopReason, usage) => Some(m.(stopReason := stopReason, usage := usage))
    case Unfit => None
  }

  /** An attempt so far: the message, the text emitted, and whether accumulating has failed. */
  datatype Played = Played(msg: Message, tokens: seq<string>, broken: bool)

  function Play(chunks: seq<Chunk>): Played {
    if |chunks| == 0 then Played(EMPTY, [], false)
    else
      var p, c := Play(chunks[..|chunks| - 1]), chunks[|chunks| - 1];
      if p.broken then p
      else
        match Accumulate(p.msg, c)
        case None => p.(broken := true)
        case Some(msg) =>
          Played(msg, if c.TextDelta? && c.text != "" then p.tokens + [c.text] else p.tokens, false)
  }

  /** The output stream after emitting pieces of text. */
  function Show(shown: seq<Event>, tokens: seq<string>): seq<Event> {
    if |tokens| == 0 then shown
    else Show(shown, tokens[..|tokens| - 1]) + [TokenEvent(tokens[|tokens| - 1])]
  }

  function Concat(texts: seq<string>): string {
    if |texts| == 0 then "" else Concat(texts[..|texts| - 1]) + texts[|texts| - 1]
  }

  function TextOf(content: seq<Block>): string {
    if |content| == 0 then "" else TextOf(content[..|content| - 1]) + content[|content| - 1].text
  }

  function Classify(e: Failure): (bool, bool) {
    match e
    case Transport(contextDone) => (false, !contextDone)
    case Api(status) => (status == 429, status >= 500)
  }

  /** The attempt fails in a way that is worth one more try, with nothing shown yet. */
  predicate Retried(a: Attempt) {
    var p := Play(a.chunks);
    && !p.broken && p.tokens == []
    && a.ending.Failed? && !Classify(a.ending.error).0 && Classify(a.ending.error).1
    && !a.cancelled
  }

  function ResultOf(a: Attempt): Result<Message, RunError> {
    var p := Play(a.chunks);
    if p.broken then Err(Accumulating)
    else
      match a.ending
      case Complete => Ok(p.msg)
      case Failed(e) => Err(if Classify(e).0 then Busy else Streaming(e))
  }

  /** The number of the attempt that decides a call beginning with attempt `call`. */
  function Deciding(model: Model, call: nat): nat {
    if Retried(model(call)) then call + 1 else call
  }

  /** When a call is a success and what the errors are, on the attempt's own fields. */
  lemma ResultExactly(a: Attempt)
    ensures ResultOf(a).Ok? <==> a.ending.Complete? && !Play(a.chunks).broken
    ensures ResultOf(a).Ok? ==> ResultOf(a).value == Play(a.chunks).msg
    ensures ResultOf(a) == Err(Accumulating) <==> Play(a.chunks).broken
    ensures ResultOf(a) == Err(Busy) <==> !Play(a.chunks).broken && a.ending == Failed(Api(429))
    ensures forall e :: ResultOf(a) == Err(Streaming(e)) <==>
              !Play(a.chunks).broken && a.ending == Failed(e) && e != Api(429)
  {
  }

  /** A second attempt is made exactly when the first one fits together and has shown
      nothing, the failure is a server or transport error, and there is time left. */
  lemma DecidingExactly(model: Model, call: nat)
    ensures var a := model(call);
            Deciding(model, call) == call + 1 <==>
              && !Play(a.chunks).broken && Play(a.chunks).tokens == [] && !a.cancelled
              && match a.ending
                 case Complete => false
                 case Failed(Api(status)) => 500 <= status
                 case Failed(Transport(contextDone)) => !contextDone
    ensures Deciding(model, call) == call + 1 || Deciding(model, call) == call
  {
  }

  /** Chunk `i` does not fit the message built from those before it. */
  predicate BreaksAt(chunks: seq<Chunk>, i: nat) {
    i < |chunks| && Accumulate(Play(chunks[..i]).msg, chunks[i]).None?
  }

  /** An attempt breaks exactly when some chunk does not fit. */
  lemma {:induction false} BrokenExactly(chunks: seq<Chunk>)
    ensures Play(chunks).broken <==> exists i: nat :: BreaksAt(chunks, i)
  {
    hide Accumulate;
    if 0 < |chunks| {
      var n := |chunks| - 1;
      BrokenExactly(chunks[..n]);
      forall i: nat | BreaksAt(chunks[..n], i) ensures BreaksAt(chunks, i) {
        assert chunks[..n][..i] == chunks[..i];
      }
      forall i: nat | BreaksAt(chunks, i) && i < n ensures BreaksAt(chunks[..n], i) {
        assert chunks[..n][..i] == chunks[..i];
      }
      if !Play(chunks[..n]).broken && Play(chunks).broken {
        assert BreaksAt(chunks, n);
      }
    }
  }

  /** The input that the stream brings for tool calls. */
  function InputOf(chunks: seq<Chunk>): string {
    if |chunks| == 0 then ""
    else
      var c := chunks[|chunks| - 1];
      InputOf(chunks[..|chunks| - 1]) + if c.InputDelta? then c.json else ""
  }

  /** The blocks that the stream begins. */
  function BlocksOf(chunks: seq<Chunk>): seq<(BlockKind, string, string)> {
    if |chunks| == 0 then []
    else
      var c := chunks[|chunks| - 1];
      BlocksOf(chunks[..|chunks| - 1]) + if c.BlockStart? then [(c.kind, c.id, c.name)] else []
  }

  function Inputs(content: seq<Block>): string {
    if |content| == 0 then "" else Inputs(content[..|content| - 1]) + content[|content| - 1].input
  }

  function Heads(content: seq<Block>): seq<(BlockKind, string, string)> {
    if |content| == 0 then []
    else
      var b := content[|content| - 1];
      Heads(content[..|content| - 1]) + [(b.kind, b.id, b.name)]
  }

  lemma AccumulatingBlocks(m: Message, c: Chunk)
    requires Accumulate(m, c).Some?
    ensures var after := Accumulate(m, c).value.content;
            && Inputs(after) == Inputs(m.content) + (if c.InputDelta? then c.json else "")
            && Heads(after) == Heads(m.content) + if c.BlockStart? then [(c.kind, c.id, c.name)] else []
  {
    var after := Accumulate(m, c).value.content;
    match c
    case BlockStart(_, _, _) =>
      assert after[..|after| - 1] == m.content;
    case TextDelta(_) =>
      assert after[..|after| - 1] == m.content[..|after| - 1];
    case InputDelta(_) =>
      assert after[..|after| - 1] == m.content[..|after| - 1];
    case _ =>
  }

  /** The message of an attempt that fits together has the blocks that the stream began, with
      their ids and names, and all the input that came for its tool calls. */
  lemma {:induction false} BlocksAreTheStream(chunks: seq<Chunk>)
    requires !Play(chunks).broken
    ensures Heads(Play(chunks).msg.content) == BlocksOf(chunks)
    ensures Inputs(Play(chunks).msg.content) == InputOf(chunks)
  {
    if 0 < |chunks| {
      hide Accumulate;
      var n := |chunks| - 1;
      BlocksAreTheStream(chunks[..n]);
      AccumulatingBlocks(Play(chunks[..n]).msg, chunks[n]);
    }
  }

  /** The stop reason and the token counts of a message are those reported last. */
  lemma {:induction false} LastReportCounts(chunks: seq<Chunk>, i: nat)
    requires i < |chunks| && chunks[i].MessageDelta? && !Play(chunks).broken
    requires forall k :: i < k < |chunks| ==> !chunks[k].MessageDelta?
    ensures Play(chunks).msg.stopReason == chunks[i].stopReason && Play(chunks).msg.usage == chunks[i].usage
    decreases |chunks|
  {
    var n := |chunks| - 1;
    if i < n {
      LastReportCounts(chunks[..n], i);
    }
  }

  method Stream(model: Model, call: nat, sink: Sink) returns (r: Result<Message, RunError>, next: nat)
    modifies sink
    // At most two attempts, and everything shown comes from the last one.
    ensures next == Deciding(model, call) + 1 <= call + 2
    ensures sink.events == Show(old(sink.events), Play(model(next - 1).chunks).tokens)
    ensures r == ResultOf(model(next - 1))
    ensures r.Ok? <==> model(next - 1).ending.Complete? && !Play(model(next - 1).chunks).broken
    ensures r == Err(Busy) <==>
              model(next - 1).ending == Failed(Api(429)) && !Play(model(next - 1).chunks).broken
    ensures r.Ok? ==> Concat(Play(model(next - 1).chunks).tokens) == TextOf(r.value.content)
  {
    var attempt := 0;
    while true
      invariant attempt <= 1
      invariant attempt == 1 ==> Retried(model(call))
      invariant sink.events == old(sink.events)
      decreases 2 - attempt
    {
      var a := model(call + attempt);
      next := call + attempt + 1;
      var msg, emitted, fits := PlayOut(a, sink);
      TokensAreTheText(a.chunks);
      if !fits {
        return Err(Accumulating), next;
      }
      if a.ending.Complete? {
        return Ok(msg), next;
      }
      var (busy, retryable) := Classify(a.ending.error);
      if busy {
        return Err(Busy), next;
      }
      if !retryable || emitted || attempt > 0 {
        return Err(Streaming(a.ending.error)), next;
      }
      if a.cancelled {
        return Err(Streaming(a.ending.error)), next;
      }
      attempt := attempt + 1;
    }
  }

  /** The inner loop: accumulates the chunks of one attempt and emits its text. */
  method PlayOut(a: Attempt, sink: Sink) returns (msg: Message, emitted: bool, fits: bool)
    modifies sink
    ensures var p := Play(a.chunks);
            && sink.events == Show(old(sink.events), p.tokens)
            && fits == !p.broken
            && (fits ==> msg == p.msg)
            && emitted == (p.tokens != [])
  {
    msg, emitted, fits := EMPTY, false, true;
    var i := 0;
    while i < |a.chunks|
      invariant 0 <= i <= |a.chunks|
      invariant var p := Play(a.chunks[..i]);
                !p.broken && msg == p.msg && emitted == (p.tokens != [])
                && sink.events == Show(old(sink.events), p.tokens)
    {
      ghost var before := Play(a.chunks[..i]);
      var chunk := a.chunks[i];
      assert a.chunks[..i + 1][..i] == a.chunks[..i];
      match Accumulate(msg, chunk) {
        case None =>
          BrokenStays(a.chunks, i + 1);
          return msg, emitted, false;
        case Some(m) =>
          msg := m;
      }
      if chunk.TextDelta? && chunk.text != "" {
        emitted := true;
        sink.Emit(TokenEvent(chunk.text));
        assert (before.tokens + [chunk.text])[..|before.tokens|] == before.tokens;
      }
      i := i + 1;
    }
    assert a.chunks[..i] == a.chunks;
  }

  lemma {:induction false} BrokenStays(chunks: seq<Chunk>, n: nat)
    requires n <= |chunks| && Play(chunks[..n]).broken
    ensures Play(chunks) == Play(chunks[..n])
    decreases |chunks| - n
  {
    if n == |chunks| {
      assert chunks[..n] == chunks;
    } else {
      assert chunks[..n + 1][..n] == chunks[..n];
      BrokenStays(chunks, n + 1);
    }
  }

  /** What an attempt emits is, put together, the text of the message it accumulates. */
  lemma {:induction false} TokensAreTheText(chunks: seq<Chunk>)
    ensures Concat(Play(chunks).tokens) == TextOf(Play(chunks).msg.content)
  {
    if 0 < |chunks| {
      var n := |chunks| - 1;
      TokensAreTheText(chunks[..n]);
      var p, c := Play(chunks[..n]), chunks[n];
      if !p.broken && Accumulate(p.msg, c).Some? {
        AccumulatingText(p.msg, c);
        if c.TextDelta? {
          assert (p.tokens + [c.text])[..|p.tokens|] == p.tokens;
        }
      }
    }
  }

  lemma AccumulatingText(m: Message, c: Chunk)
    requires Accumulate(m, c).Some?
    ensures TextOf(Accumulate(m, c).value.content)
            == TextOf(m.content) + if c.TextDelta? then c.text else ""
  {
    var after := Accumulate(m, c).value.content;
    match c
    case BlockStart(_, _, _) =>
      assert after[..|after| - 1] == m.content;
    case TextDelta(_) =>
      assert after[..|after| - 1] == m.content[..|after| - 1];
    case InputDelta(_) =>
      assert after[..|after| - 1] == m.content[..|after| - 1];
    case _ =>
  }
}
