/** What a run adds to the conversation, to the output stream and to the token counters, told
    from the replies of the model and the tools themselves. */
module AgentTranscript {
  import opened AgentHistory
  import opened AgentLoop
  import opened Events
  import opened ModelStream
  import TruncateResult

  // ----- The conversation -----

  function Reply(q: Question, d: nat): Message {
    Play(q.model(d).chunks).msg
  }

  predicate Succeeds(q: Question, d: nat) {
    q.model(d).ending.Complete? && !Play(q.model(d).chunks).broken
  }

  /** Result number `i` answers tool call number `i` of the message with what tool call number
      `first + i` of the run gave back. */
  predicate AnsweredBy(content: seq<Block>, results: seq<ToolResult>, tools: Tools, first: nat) {
    var uses := ToolUses(content);
    |results| == |uses| && forall i :: 0 <= i < |uses| ==> AnswersCall(results[i], uses[i], tools(first + i))
  }

  predicate AnswersCall(r: ToolResult, call: Block, reply: ToolReply) {
    r.id == call.id && r.isError == reply.isError && TruncateResult.Faithful(r.text, reply.text)
  }

  /** At `at` the conversation has the whole message of attempt `d`, and then its answers. */
  predicate ReplyKept(q: Question, h: History, at: nat, d: nat, first: nat, answered: bool) {
    && Succeeds(q, d)
    && at < |h| && h[at] == Assistant(Reply(q, d).content)
    && (Reply(q, d).stopReason == TOOL_USE <==> answered)
    && (answered ==>
          at + 1 < |h| && h[at + 1].UserResults?
          && AnsweredBy(Reply(q, d).content, h[at + 1].results, q.tools, first))
  }

  /** `ds` are the attempts that decide the turns from `attempts` on, and `firsts` the numbers
      of the first tool call of each. */
  predicate Asked(q: Question, attempts: nat, calls: nat, ds: seq<nat>, firsts: seq<nat>) {
    && |firsts| == |ds| + 1 && firsts[0] == calls
    && (forall k :: 0 <= k < |ds| ==> AskedAt(q, attempts, ds, firsts, k))
  }

  predicate AskedAt(q: Question, attempts: nat, ds: seq<nat>, firsts: seq<nat>, k: nat)
    requires k < |ds| && |firsts| == |ds| + 1
  {
    && ds[k] == Deciding(q.model, Next(attempts, ds, k))
    && firsts[k + 1] == firsts[k] + |ToolUses(Reply(q, ds[k]).content)|
  }

  function Next(attempts: nat, ds: seq<nat>, k: nat): nat
    requires k <= |ds|
  {
    if k == 0 then attempts else ds[k - 1] + 1
  }

  function Field(u: Usage, f: nat): int {
    match f
    case 0 => 1
    case 1 => u.input
    case 2 => u.output
    case 3 => u.cacheRead
    case _ => u.cacheCreation
  }

  function Total(q: Question, ds: seq<nat>, f: nat): int {
    if |ds| == 0 then 0 else Field(Reply(q, ds[0]).usage, f) + Total(q, ds[1..], f)
  }

  lemma {:induction false} AnswersAreFaithful(shown: seq<Event>, content: seq<Block>, tools: Tools, first: nat)
    ensures AnsweredBy(content, Answer(shown, content, tools, first).results, tools, first)
  {
    hide TruncateResult.Truncated, TruncateResult.Faithful;
    if 0 < |content| {
      var front := content[..|content| - 1];
      AnswersAreFaithful(shown, front, tools, first);
      var n := |Answer(shown, front, tools, first).results|;
      TruncateResult.TruncatedIsFaithful(tools(first + n).text);
    }
  }

  /** One turn, read off the attempt that decides it. */
  lemma TurnKeepsReply(p: Progress, q: Question)
    ensures var (t, status) := TurnOf(p, q);
            var d := Deciding(q.model, p.attempts);
            && t.attempts == d + 1
            && (status.Stopped? <==> !Succeeds(q, d))
            && (status.Stopped? ==> t.history == p.history && t.used == p.used && t.calls == p.calls)
            && (!status.Stopped? ==>
                  && ReplyKept(q, t.history, |p.history|, d, p.calls, status.Again?)
                  && p.history <= t.history && |t.history| == |p.history| + (if status.Again? then 2 else 1)
                  && (forall f :: 0 <= f < 5 ==> t.used[f] == p.used[f] + Field(Reply(q, d).usage, f)))
            && (status.Again? ==> t.calls == p.calls + |ToolUses(Reply(q, d).content)|)
  {
    hide Deciding, Show, Play, Answer, ResultOf, ToolUses, TruncateResult.Faithful, AnswersCall;
    var d := Deciding(q.model, p.attempts);
    ResultExactly(q.model(d));
    var r := ResultOf(q.model(d));
    if r.Ok? {
      var shown := Show(p.events, Play(q.model(d).chunks).tokens);
      AnswersAreFaithful(shown, r.value.content, q.tools, p.calls);
    }
  }

  /** What a run leaves behind, from `p` on with `turns` turns left. */
  predicate Transcript(p: Progress, turns: nat, q: Question, o: Outcome, ds: seq<nat>, firsts: seq<nat>) {
    var n, h := |p.history|, o.end.history;
    && Asked(q, p.attempts, p.calls, ds, firsts)
    && |ds| <= turns
    && (o.completed ==> 0 < |ds| && o.error.None?)
    && p.history <= h && |h| == n + 2 * |ds| - (if o.completed then 1 else 0)
    && (forall k :: 0 <= k < |ds| ==> ReplyKept(q, h, n + 2 * k, ds[k], firsts[k], k + 1 < |ds| || !o.completed))
    && (o.error.None? && !o.completed ==> |ds| == turns)
    && (o.error.Some? ==> |ds| < turns && !Succeeds(q, Deciding(q.model, Next(p.attempts, ds, |ds|))))
    && (forall f :: 0 <= f < 5 ==> o.end.used[f] == p.used[f] + Total(q, ds, f))
  }

  lemma ReplyStays(q: Question, h: History, g: History, at: nat, d: nat, first: nat, answered: bool)
    requires h <= g && ReplyKept(q, h, at, d, first, answered)
    ensures ReplyKept(q, g, at, d, first, answered)
  {
    hide Reply, Succeeds, AnsweredBy;
  }

  lemma TranscriptGrows(
    p: Progress, t: Progress, turns: nat, q: Question, o: Outcome, ds: seq<nat>, firsts: seq<nat>, d: nat)
    requires 0 < turns && Transcript(t, turns - 1, q, o, ds, firsts)
    requires d == Deciding(q.model, p.attempts) && t.attempts == d + 1
    requires t.calls == p.calls + |ToolUses(Reply(q, d).content)|
    requires p.history <= t.history && |t.history| == |p.history| + 2
    requires ReplyKept(q, t.history, |p.history|, d, p.calls, true)
    requires forall f :: 0 <= f < 5 ==> t.used[f] == p.used[f] + Field(Reply(q, d).usage, f)
    ensures Transcript(p, turns, q, o, [d] + ds, [p.calls] + firsts)
  {
    hide Deciding, Reply, ToolUses, ReplyKept, Succeeds;
    var es, gs, h := [d] + ds, [p.calls] + firsts, o.end.history;
    forall k | 0 <= k < |es| ensures AskedAt(q, p.attempts, es, gs, k) {
      if 0 < k {
        assert AskedAt(q, t.attempts, ds, firsts, k - 1);
      }
    }
    forall k | 0 <= k < |es|
      ensures ReplyKept(q, h, |p.history| + 2 * k, es[k], gs[k], k + 1 < |es| || !o.completed)
    {
      if k == 0 {
        ReplyStays(q, t.history, h, |p.history|, d, p.calls, true);
      } else {
        assert ReplyKept(q, h, |t.history| + 2 * (k - 1), ds[k - 1], firsts[k - 1], k < |ds| || !o.completed);
      }
    }
    assert es[1..] == ds;
    assert Next(p.attempts, es, |es|) == Next(t.attempts, ds, |ds|);
  }

  lemma {:induction false} LoopTranscript(p: Progress, turns: nat, q: Question)
    returns (ds: seq<nat>, firsts: seq<nat>)
    ensures Transcript(p, turns, q, Loop(p, turns, q), ds, firsts)
    decreases turns
  {
    hide TurnOf, Transcript;
    if turns == 0 {
      ds, firsts := EmptyTranscript(p, turns, q, Loop(p, turns, q));
    } else {
      TurnKeepsReply(p, q);
      var (t, status) := TurnOf(p, q);
      var d := Deciding(q.model, p.attempts);
      match status {
        case Stopped(_) =>
          ds, firsts := EmptyTranscript(p, turns, q, Loop(p, turns, q));
        case Finished =>
          ds, firsts := LastTranscript(p, turns, q, Loop(p, turns, q), d);
        case Again =>
          ds, firsts := LoopTranscript(t, turns - 1, q);
          TranscriptGrows(p, t, turns, q, Loop(p, turns, q), ds, firsts, d);
          ds, firsts := [d] + ds, [p.calls] + firsts;
      }
    }
  }

  lemma EmptyTranscript(p: Progress, turns: nat, q: Question, o: Outcome) returns (ds: seq<nat>, firsts: seq<nat>)
    requires o.end.history == p.history && o.end.used == p.used && !o.completed
    requires if o.error.None? then turns == 0 else 0 < turns && !Succeeds(q, Deciding(q.model, p.attempts))
    ensures Transcript(p, turns, q, o, ds, firsts)
  {
    ds, firsts := [], [p.calls];
  }

  lemma LastTranscript(p: Progress, turns: nat, q: Question, o: Outcome, d: nat)
    returns (ds: seq<nat>, firsts: seq<nat>)
    requires 0 < turns && o.completed && o.error.None? && d == Deciding(q.model, p.attempts)
    requires p.history <= o.end.history && |o.end.history| == |p.history| + 1
    requires ReplyKept(q, o.end.history, |p.history|, d, p.calls, false)
    requires forall f :: 0 <= f < 5 ==> o.end.used[f] == p.used[f] + Field(Reply(q, d).usage, f)
    ensures Transcript(p, turns, q, o, ds, firsts)
  {
    hide Reply;
    ds, firsts := [d], [p.calls, p.calls + |ToolUses(Reply(q, d).content)|];
    assert [d][1..] == [];
    assert forall f :: 0 <= f < 5 ==> Total(q, [], f) == 0;
    assert forall f :: 0 <= f < 5 ==> Total(q, ds, f) == Field(Reply(q, d).usage, f) + Total(q, ds[1..], f);
  }

  /** The transcript of a run: the question, then for each attempt that decides a turn its
      whole message, complete and unbroken, followed by what the tools gave back for each of
      its calls, under the call's id, unaltered up to the cap. Turns go on exactly while the
      model stops for tool use, and what is counted is what these messages used. */
  lemma RunTranscript(h: History, q: Question, shown: seq<Event>) returns (ds: seq<nat>, firsts: seq<nat>)
    ensures var o := Ran(h, q, shown);
            var p := Begin(h, q, shown);
            && p.history == h + [UserText(q.text)] && p.attempts == 0 && p.calls == 0
            && (forall f :: 0 <= f < 5 ==> o.end.used[f] == Total(q, ds, f))
            && Transcript(p, TurnsLeft(q, 0), q, o, ds, firsts)
  {
    hide Loop;
    ds, firsts := LoopTranscript(Begin(h, q, shown), TurnsLeft(q, 0), q);
  }

  // ----- What is shown is what is kept -----

  /** The text that the assistant's turns hold. */
  function KeptText(h: History): string {
    if |h| == 0 then ""
    else
      var last := h[|h| - 1];
      KeptText(h[..|h| - 1]) + if last.Assistant? then TextOf(last.content) else ""
  }

  /** The text that the stream's token events hold. */
  function ShownText(es: seq<Event>): string {
    if |es| == 0 then ""
    else
      var last := es[|es| - 1];
      ShownText(es[..|es| - 1]) + if last.kind == Token then last.text else ""
  }

  function Names(blocks: seq<Block>): seq<string> {
    if |blocks| == 0 then [] else Names(blocks[..|blocks| - 1]) + [blocks[|blocks| - 1].name]
  }

  /** The tools called in messages that results follow. */
  function CalledTools(h: History): seq<string> {
    if |h| < 2 then []
    else
      var last, before := h[|h| - 1], h[|h| - 2];
      CalledTools(h[..|h| - 1]) +
      if last.UserResults? && before.Assistant? then Names(ToolUses(before.content)) else []
  }

  /** The tools whose start the stream shows. */
  function StartedTools(es: seq<Event>): seq<string> {
    if |es| == 0 then []
    else
      var last := es[|es| - 1];
      StartedTools(es[..|es| - 1]) + if last.kind == Tool && last.status == "start" then [last.tool] else []
  }

  lemma ShownOne(es: seq<Event>, e: Event)
    ensures ShownText(es + [e]) == ShownText(es) + if e.kind == Token then e.text else ""
    ensures StartedTools(es + [e]) ==
            StartedTools(es) + if e.kind == Tool && e.status == "start" then [e.tool] else []
  {
    assert (es + [e])[..|es|] == es;
  }

  lemma KeptOne(h: History, x: Turn)
    ensures KeptText(h + [x]) == KeptText(h) + if x.Assistant? then TextOf(x.content) else ""
    ensures CalledTools(h + [x]) ==
            CalledTools(h) + if 0 < |h| && x.UserResults? && h[|h| - 1].Assistant?
                             then Names(ToolUses(h[|h| - 1].content)) else []
  {
    hide TextOf, ToolUses, Names;
    assert (h + [x])[..|h|] == h;
  }

  lemma {:induction false} ShowsItsText(shown: seq<Event>, tokens: seq<string>)
    ensures ShownText(Show(shown, tokens)) == ShownText(shown) + Concat(tokens)
    ensures StartedTools(Show(shown, tokens)) == StartedTools(shown)
  {
    if 0 < |tokens| {
      var front, last := tokens[..|tokens| - 1], tokens[|tokens| - 1];
      ShowsItsText(shown, front);
      ShownOne(Show(shown, front), TokenEvent(last));
    }
  }

  lemma {:induction false} ShowsItsCalls(shown: seq<Event>, content: seq<Block>, tools: Tools, first: nat)
    ensures var es := Answer(shown, content, tools, first).events;
            ShownText(es) == ShownText(shown) && StartedTools(es) == StartedTools(shown) + Names(ToolUses(content))
  {
    hide TruncateResult.Truncated, ShownText, StartedTools;
    if 0 < |content| {
      var front, block := content[..|content| - 1], content[|content| - 1];
      ShowsItsCalls(shown, front, tools, first);
      var es := Answer(shown, front, tools, first).events;
      if block.kind == ToolUse {
        assert "start" != "done" by { assert "start"[0] != "done"[0]; }
        ShownOne(es, ToolEvent(block.name, "start"));
        ShownOne(es + [ToolEvent(block.name, "start")], ToolEvent(block.name, "done"));
        assert (ToolUses(front) + [block])[..|ToolUses(front)|] == ToolUses(front);
        assert Names(ToolUses(content)) == Names(ToolUses(front)) + [block.name];
      } else {
        assert ToolUses(content) == ToolUses(front);
      }
    }
  }

  /** From `p` to `t` the same text and the same tool calls are added to the conversation and
      to the stream. */
  predicate Told(p: Progress, t: Progress, text: string, names: seq<string>) {
    && KeptText(t.history) == KeptText(p.history) + text
    && ShownText(t.events) == ShownText(p.events) + text
    && CalledTools(t.history) == CalledTools(p.history) + names
    && StartedTools(t.events) == StartedTools(p.events) + names
  }

  lemma TurnTells(p: Progress, q: Question) returns (text: string, names: seq<string>)
    ensures var (t, status) := TurnOf(p, q); !status.Stopped? ==> Told(p, t, text, names)
  {
    hide Deciding, Show, Play, Answer, KeptText, ShownText, CalledTools, StartedTools, TextOf, ToolUses, Concat;
    var d := Deciding(q.model, p.attempts);
    var r := ResultOf(q.model(d));
    text, names := "", [];
    if r.Ok? {
      ResultExactly(q.model(d));
      var tokens, content := Play(q.model(d).chunks).tokens, r.value.content;
      TokensAreTheText(q.model(d).chunks);
      ShowsItsText(p.events, tokens);
      KeptOne(p.history, Assistant(content));
      text := TextOf(content);
      if r.value.stopReason == TOOL_USE {
        var shown := Show(p.events, tokens);
        ShowsItsCalls(shown, content, q.tools, p.calls);
        KeptOne(p.history + [Assistant(content)], UserResults(Answer(shown, content, q.tools, p.calls).results));
        names := Names(ToolUses(content));
      }
    }
  }

  lemma ToldTwice(p: Progress, t: Progress, u: Progress, a: string, x: seq<string>, b: string, y: seq<string>)
    requires Told(p, t, a, x) && Told(t, u, b, y)
    ensures Told(p, u, a + b, x + y)
  {
    hide KeptText, ShownText, CalledTools, StartedTools;
  }

  lemma CloseTells(p: Progress, completed: bool)
    ensures Told(p, Close(p, completed), "", [])
  {
    ShownOne(p.events, DONE);
    ShownOne(p.events, ErrorEvent(STEP_LIMIT));
    ShownOne(p.events + [ErrorEvent(STEP_LIMIT)], DONE);
  }

  /** What a run shows is what it keeps: the same text, and the same tool calls by name, are
      added to the stream and to the conversation. */
  lemma {:induction false} ShownIsKept(p: Progress, turns: nat, q: Question) returns (text: string, names: seq<string>)
    ensures var o := Loop(p, turns, q); o.error.None? ==> Told(p, o.end, text, names)
    decreases turns
  {
    hide TurnOf, Told, Close;
    if turns == 0 {
      text, names := "", [];
      CloseTells(p, false);
    } else {
      text, names := TurnTells(p, q);
      var (t, status) := TurnOf(p, q);
      if status.Finished? {
        CloseTells(t, true);
        ToldTwice(p, t, Close(t, true), text, names, "", []);
        assert text + "" == text && names + [] == names;
      } else if status.Again? {
        var more, others := ShownIsKept(t, turns - 1, q);
        if Loop(t, turns - 1, q).error.None? {
          ToldTwice(p, t, Loop(t, turns - 1, q).end, text, names, more, others);
        }
        text, names := text + more, names + others;
      }
    }
  }
}
