/** The tool-use loop: `Run` of internal/agent/agent.go.

    `Loop` says what the loop does to the conversation as a value. `Agent.Run` does it
    on Go slices that share their backing array with the session, with the model and
    the tools as oracles: the results of a run's model attempts and tool calls, in the
    order in which they are made. */
module AgentLoop {
  import opened Events
  import opened GoSlice
  import opened ModelStream
  import opened Utf8
  import opened Wrappers
  import TruncateResult
  import C = UsageCounters

  datatype ToolResult = ToolResult(id: string, text: Bytes, isError: bool)

  datatype Turn =
    | UserText(text: string)
    | Assistant(content: seq<Block>)
    | UserResults(results: seq<ToolResult>)

  type History = seq<Turn>

  datatype ToolReply = ToolReply(text: Bytes, isError: bool)

  type Tools = nat -> ToolReply

  const TOOL_USE := "tool_use"
  const STEP_LIMIT := "reached the step limit for one question; ask a narrower question"

  function ToolUses(content: seq<Block>): seq<Block> {
    if |content| == 0 then []
    else
      var b := content[|content| - 1];
      ToolUses(content[..|content| - 1]) + if b.kind == ToolUse then [b] else []
  }

  /** The results of a message's tool calls, and the output stream after them. */
  datatype Replies = Replies(results: seq<ToolResult>, events: seq<Event>)

  /** Answers the tool calls of a message in order; `first` is the number of the first one in the run. */
  function Answer(shown: seq<Event>, content: seq<Block>, tools: Tools, first: nat): Replies {
    if |content| == 0 then Replies([], shown)
    else
      var r, block := Answer(shown, content[..|content| - 1], tools, first), content[|content| - 1];
      if block.kind != ToolUse then r
      else
        var reply := tools(first + |r.results|);
        Replies(r.results + [ToolResult(block.id, TruncateResult.Truncated(reply.text), reply.isError)],
                r.events + [ToolEvent(block.name, "start")] + [ToolEvent(block.name, "done")])
  }

  /** One question to the agent, with everything the outside world does while it is answered. */
  datatype Question = Question(text: string, maxTurns: int, model: Model, tools: Tools)

  /** A run in progress: the conversation, the output stream, how many model attempts and
      tool calls the run has made, and what its replies have used. */
  datatype Progress = Progress(history: History, events: seq<Event>, attempts: nat, calls: nat, used: C.Counters)

  /** One more response on the run's own account. */
  function Used(run: C.Counters, u: Usage): (r: C.Counters)
    ensures r[0] == run[0] + 1 && r[1] == run[1] + u.input && r[2] == run[2] + u.output
    ensures r[3] == run[3] + u.cacheRead && r[4] == run[4] + u.cacheCreation
  {
    C.Fields(run[0] + 1, run[1] + u.input, run[2] + u.output, run[3] + u.cacheRead, run[4] + u.cacheCreation)
  }

  /** How one turn of the loop ends. */
  datatype Status = Again | Finished | Stopped(error: RunError)

  function TurnOf(p: Progress, q: Question): (Progress, Status) {
    var d := Deciding(q.model, p.attempts);
    var shown := Show(p.events, Play(q.model(d).chunks).tokens);
    match ResultOf(q.model(d))
    case Err(e) => (Progress(p.history, shown, d + 1, p.calls, p.used), Stopped(e))
    case Ok(msg) =>
      var answered, used := p.history + [Assistant(msg.content)], Used(p.used, msg.usage);
      if msg.stopReason != TOOL_USE then (Progress(answered, shown, d + 1, p.calls, used), Finished)
      else
        var r := Answer(shown, msg.content, q.tools, p.calls);
        (Progress(answered + [UserResults(r.results)], r.events, d + 1, p.calls + |r.results|, used), Again)
  }

  /** The outcome of a run: what it leaves, its error if it fails, and whether the model finished its answer. */
  datatype Outcome = Outcome(end: Progress, error: Option<RunError>, completed: bool)

  /** The loop, with `turns` turns left. */
  function Loop(p: Progress, turns: nat, q: Question): Outcome
    decreases turns
  {
    if turns == 0 then Outcome(Close(p, false), None, false)
    else
      var (t, status) := TurnOf(p, q);
      match status
      case Stopped(e) => Outcome(t, Some(e), false)
      case Finished => Outcome(Close(t, true), None, true)
      case Again => Loop(t, turns - 1, q)
  }

  /** What is shown at the end of a run that has not failed. */
  function Close(p: Progress, completed: bool): Progress {
    p.(events := if completed then p.events + [DONE] else p.events + [ErrorEvent(STEP_LIMIT)] + [DONE])
  }

  function TurnsLeft(q: Question, turn: nat): (n: nat)
    ensures turn <= q.maxTurns ==> turn + n == q.maxTurns
    ensures q.maxTurns < turn ==> n == 0
  {
    if turn < q.maxTurns then q.maxTurns - turn else 0
  }

  function Begin(h: History, q: Question, shown: seq<Event>): Progress {
    Progress(h + [UserText(q.text)], shown, 0, 0, C.Fields(0, 0, 0, 0, 0))
  }

  function Ran(h: History, q: Question, shown: seq<Event>): Outcome {
    Loop(Begin(h, q, shown), TurnsLeft(q, 0), q)
  }

  /** By how much the counters of a possibly nil tracker have grown. */
  twostate predicate Counts(usage: C.Tracker?, before: C.Counters, after: C.Counters)
    reads usage
  {
    usage != null ==>
      forall f :: 0 <= f < 5 ==> usage.Value()[f] - old(usage.Value())[f] == after[f] - before[f]
  }

  /** `room` is the spare capacity that append gives a new backing array of that length. */
  method Run(history: Slice<Turn>, q: Question, room: nat -> nat, usage: C.Tracker?, sink: Sink)
    returns (newHistory: Slice<Turn>, error: Option<RunError>)
    requires Fits(history)
    modifies history.arr, usage, sink
    // The caller's slice still shows what it showed, though its array may be written behind it.
    ensures View(history) == old(View(history))
    ensures Fits(newHistory) && (newHistory.arr == history.arr || fresh(newHistory.arr))
    ensures var o := Ran(old(View(history)), q, old(sink.events));
            && View(newHistory) == o.end.history && error == o.error && sink.events == o.end.events
            && Counts(usage, C.Fields(0, 0, 0, 0, 0), o.end.used)
  {
    hide TurnOf;
    var cur := Append(history, UserText(q.text), room(history.len));
    var run := C.Fields(0, 0, 0, 0, 0);
    var completed := false;
    var attempts: nat, calls: nat, turn: nat := 0, 0, 0;
    ghost var p := Begin(old(View(history)), q, sink.events);
    ghost var goal := Loop(p, TurnsLeft(q, 0), q);
    while turn < q.maxTurns
      invariant Fits(cur) && (cur.arr == history.arr || fresh(cur.arr))
      invariant history.len <= cur.len && View(history) == old(View(history))
      invariant p == Progress(View(cur), sink.events, attempts, calls, run)
      invariant Counts(usage, C.Fields(0, 0, 0, 0, 0), run)
      invariant !completed && goal == Loop(p, TurnsLeft(q, turn), q)
    {
      var status;
      cur, attempts, calls, run, status := TakeTurn(history, cur, q, attempts, calls, run, room, usage, sink);
      p := TurnOf(p, q).0;
      if status.Stopped? {
        return cur, Some(status.error);
      }
      if status.Finished? {
        completed := true;
        break;
      }
      turn := turn + 1;
    }
    if !completed {
      sink.Emit(ErrorEvent(STEP_LIMIT));
    }
    sink.Emit(DONE);
    return cur, None;
  }

  /** The body of the loop. */
  method TakeTurn(
    history: Slice<Turn>, cur: Slice<Turn>, q: Question, attempts: nat, calls: nat, run: C.Counters,
    room: nat -> nat, usage: C.Tracker?, sink: Sink)
    returns (r: Slice<Turn>, attempts': nat, calls': nat, run': C.Counters, status: Status)
    requires Fits(history) && Fits(cur) && history.len <= cur.len
    modifies cur.arr, usage, sink
    ensures Fits(r) && (r.arr == cur.arr || fresh(r.arr)) && cur.len <= r.len
    ensures View(history) == old(View(history))
    ensures (Progress(View(r), sink.events, attempts', calls', run'), status)
            == TurnOf(Progress(old(View(cur)), old(sink.events), attempts, calls, run), q)
    ensures Counts(usage, run, run')
  {
    hide Answer, Show, Play, ResultOf, Deciding, Used, C.Fields, Concat, TextOf;
    var reply, next := Stream(q.model, attempts, sink);
    if reply.Err? {
      return cur, next, calls, run, Stopped(reply.error);
    }
    var msg := reply.value;
    run' := RecordUsage(usage, run, msg.usage);
    r := AppendOwn(history, cur, Assistant(msg.content), room(cur.len));
    if msg.stopReason != TOOL_USE {
      return r, next, calls, run', Finished;
    }
    var results := AnswerTools(msg.content, q.tools, calls, sink);
    r := AppendOwn(history, r, UserResults(results), room(r.len));
    return r, next, calls + |results|, run', Again;
  }

  /** What a response used goes to the process's counters and to the run's own. */
  method RecordUsage(usage: C.Tracker?, run: C.Counters, u: Usage) returns (run': C.Counters)
    modifies usage
    ensures run' == Used(run, u) && Counts(usage, run, run')
  {
    C.Record(usage, u.input, u.output, u.cacheRead, u.cacheCreation);
    run' := Used(run, u);
  }

  /** `Append` on a slice that leaves the caller's own slice as it was. */
  method AppendOwn(history: Slice<Turn>, cur: Slice<Turn>, x: Turn, spare: nat) returns (r: Slice<Turn>)
    requires Fits(history) && Fits(cur) && history.len <= cur.len
    modifies cur.arr
    ensures Fits(r) && View(r) == old(View(cur)) + [x]
    ensures r.arr == cur.arr || fresh(r.arr)
    ensures View(history) == old(View(history))
  {
    r := Append(cur, x, spare);
    if history.arr == cur.arr {
      assert View(history) == View(cur)[..history.len];
    }
  }

  /** The loop over the blocks of one message. */
  method AnswerTools(content: seq<Block>, tools: Tools, first: nat, sink: Sink) returns (results: seq<ToolResult>)
    modifies sink
    ensures Replies(results, sink.events) == Answer(old(sink.events), content, tools, first)
  {
    hide TruncateResult.Truncated;
    results := [];
    assert content[..0] == [];
    for i := 0 to |content|
      invariant Replies(results, sink.events) == Answer(old(sink.events), content[..i], tools, first)
    {
      assert content[..i + 1][..i] == content[..i];
      var block := content[i];
      if block.kind == ToolUse {
        sink.Emit(ToolEvent(block.name, "start"));
        var reply := tools(first + |results|);
        sink.Emit(ToolEvent(block.name, "done"));
        var text := TruncateResult.TruncateToolResult(reply.text);
        results := results + [ToolResult(block.id, text, reply.isError)];
      }
    }
    assert content[..|content|] == content;
  }
}
