/** What holds of every conversation and every event stream that runs of the agent produce. */
module AgentHistory {
  import opened AgentLoop
  import opened Events
  import opened ModelStream
  import TruncateResult

  /** The conversation after a sequence of questions: a failed run leaves it as it was. */
  function Conversation(qs: seq<Question>): History {
    if |qs| == 0 then []
    else
      var n := |qs| - 1;
      Committed(Conversation(qs[..n]), qs[n])
  }

  function Committed(h: History, q: Question): History {
    var o := Ran(h, q, []);
    if o.error.None? then o.end.history else h
  }

  // ----- Tool pairing -----

  predicate Answered(content: seq<Block>, results: seq<ToolResult>) {
    var uses := ToolUses(content);
    |uses| == |results| && forall i :: 0 <= i < |uses| ==> results[i].id == uses[i].id
  }

  lemma {:induction false} AnswersMatch(shown: seq<Event>, content: seq<Block>, tools: Tools, first: nat)
    ensures Answered(content, Answer(shown, content, tools, first).results)
  {
    if 0 < |content| {
      AnswersMatch(shown, content[..|content| - 1], tools, first);
    }
  }

  /** Every message with tool calls is followed by results for exactly those calls, in
      order, and results follow nothing else. */
  predicate PairedAt(h: History, i: nat)
    requires i < |h|
  {
    && (h[i].Assistant? && ToolUses(h[i].content) != [] ==>
          i + 1 < |h| && h[i + 1].UserResults? && Answered(h[i].content, h[i + 1].results))
    && (h[i].UserResults? ==>
          0 < i && h[i - 1].Assistant? && Answered(h[i - 1].content, h[i].results))
  }

  predicate Paired(h: History) {
    forall i: nat :: i < |h| ==> PairedAt(h, i)
  }

  /** The last message calls tools that nobody has answered. */
  predicate EndsOpen(h: History) {
    h != [] && h[|h| - 1].Assistant? && ToolUses(h[|h| - 1].content) != []
  }

  lemma PairedIsClosed(h: History)
    requires Paired(h)
    ensures !EndsOpen(h)
  {
    assert h != [] ==> PairedAt(h, |h| - 1);
  }

  lemma ExtendPaired(h: History, x: Turn)
    requires Paired(h) && !x.UserResults?
    ensures Paired(h + [x]) <==> !EndsOpen(h + [x])
    ensures forall i: nat :: i < |h| ==> PairedAt(h + [x], i)
  {
    forall i: nat | i < |h| ensures PairedAt(h + [x], i) {
      assert PairedAt(h, i);
    }
    if EndsOpen(h + [x]) {
      assert !PairedAt(h + [x], |h|);
    }
  }

  lemma AnswerPaired(h: History, content: seq<Block>, results: seq<ToolResult>)
    requires Paired(h) && Answered(content, results)
    ensures Paired(h + [Assistant(content), UserResults(results)])
  {
    var all := h + [Assistant(content), UserResults(results)];
    forall i: nat | i < |all| ensures PairedAt(all, i) {
      if i < |h| {
        assert PairedAt(h, i);
      }
    }
  }

  lemma TurnPairs(p: Progress, q: Question)
    requires Paired(p.history)
    ensures var (t, status) := TurnOf(p, q);
            && (status.Finished? ==> (Paired(t.history) <==> !EndsOpen(t.history)))
            && (status.Again? ==> Paired(t.history))
  {
    hide Deciding, Show, Play;
    var d := Deciding(q.model, p.attempts);
    var r := ResultOf(q.model(d));
    if r.Ok? {
      var content := r.value.content;
      var shown := Show(p.events, Play(q.model(d).chunks).tokens);
      var results := Answer(shown, content, q.tools, p.calls).results;
      ExtendPaired(p.history, Assistant(content));
      AnswersMatch(shown, content, q.tools, p.calls);
      AnswerPaired(p.history, content, results);
      assert p.history + [Assistant(content)] + [UserResults(results)]
          == p.history + [Assistant(content), UserResults(results)];
    }
  }

  lemma {:induction false} LoopPairs(p: Progress, turns: nat, q: Question)
    requires Paired(p.history)
    ensures var o := Loop(p, turns, q);
            o.error.None? ==> (Paired(o.end.history) <==> !EndsOpen(o.end.history))
    decreases turns
  {
    hide TurnOf;
    PairedIsClosed(p.history);
    if 0 < turns {
      TurnPairs(p, q);
      if TurnOf(p, q).1.Again? {
        LoopPairs(TurnOf(p, q).0, turns - 1, q);
      }
    }
  }

  lemma {:induction false} LoopExtends(p: Progress, turns: nat, q: Question)
    ensures p.history <= Loop(p, turns, q).end.history
    decreases turns
  {
    hide Deciding, Show, Play, ResultOf, Answer;
    if 0 < turns {
      if TurnOf(p, q).1.Again? {
        LoopExtends(TurnOf(p, q).0, turns - 1, q);
      }
    }
  }

  /** After a run has been committed, the conversation goes on with the question that was asked. */
  lemma CommitExtends(h: History, q: Question)
    ensures Committed(h, q) == h || h + [UserText(q.text)] <= Committed(h, q)
  {
    LoopExtends(Begin(h, q, []), TurnsLeft(q, 0), q);
  }

  lemma CommitPairs(h: History, q: Question)
    requires Paired(h)
    ensures Paired(Committed(h, q)) <==> !EndsOpen(Committed(h, q))
  {
    ExtendPaired(h, UserText(q.text));
    PairedIsClosed(h);
    PairedIsClosed(h + [UserText(q.text)]);
    LoopPairs(Begin(h, q, []), TurnsLeft(q, 0), q);
  }

  /** An unanswered tool call is never repaired: no later question makes up for it. */
  lemma {:induction false} OpenStaysOpen(qs: seq<Question>, k: nat)
    requires k <= |qs| && EndsOpen(Conversation(qs[..k]))
    ensures !Paired(Conversation(qs))
  {
    var h := Conversation(qs[..k]);
    var all := Conversation(qs);
    ConversationGrows(qs, k);
    if all == h {
      assert !PairedAt(all, |h| - 1);
    } else {
      var text :| h + [UserText(text)] <= all;
      assert all[|h|] == UserText(text) && all[|h| - 1] == h[|h| - 1];
      assert !PairedAt(all, |h| - 1);
    }
  }

  lemma {:induction false} ConversationGrows(qs: seq<Question>, k: nat)
    requires k <= |qs|
    ensures var h, all := Conversation(qs[..k]), Conversation(qs);
            all == h || exists text :: h + [UserText(text)] <= all
    decreases |qs|
  {
    var n := |qs| - 1;
    if k == |qs| {
      assert qs[..k] == qs;
    } else {
      ConversationGrows(qs[..n], k);
      assert qs[..n][..k] == qs[..k];
      CommitExtends(Conversation(qs[..n]), qs[n]);
    }
  }

  lemma {:induction false} PairedWhileClosed(qs: seq<Question>)
    ensures Paired(Conversation(qs)) <==> forall k: nat :: k <= |qs| ==> !EndsOpen(Conversation(qs[..k]))
  {
    forall k: nat | k <= |qs| && EndsOpen(Conversation(qs[..k])) ensures !Paired(Conversation(qs)) {
      OpenStaysOpen(qs, k);
    }
    if forall k: nat :: k <= |qs| ==> !EndsOpen(Conversation(qs[..k])) {
      ClosedIsPaired(qs);
    }
  }

  lemma {:induction false} ClosedIsPaired(qs: seq<Question>)
    requires forall k: nat :: k <= |qs| ==> !EndsOpen(Conversation(qs[..k]))
    ensures Paired(Conversation(qs))
  {
    if 0 < |qs| {
      var n := |qs| - 1;
      forall k: nat | k <= n ensures !EndsOpen(Conversation(qs[..n][..k])) {
        assert qs[..n][..k] == qs[..k];
      }
      ClosedIsPaired(qs[..n]);
      CommitPairs(Conversation(qs[..n]), qs[n]);
      assert qs[..n + 1] == qs;
    }
  }

  /** The reply that ends a run calls tools although it stops for another reason than tool
      use. This looks at the replies alone, in the order in which a run asks for them. */
  predicate CutOff(attempts: nat, turns: nat, q: Question)
    decreases turns
  {
    0 < turns &&
    var d := Deciding(q.model, attempts);
    match ResultOf(q.model(d))
    case Err(_) => false
    case Ok(msg) =>
      if msg.stopReason != TOOL_USE then ToolUses(msg.content) != [] else CutOff(d + 1, turns - 1, q)
  }

  /** How a turn ends, read off the reply that decides it. */
  lemma TurnEndsOpen(p: Progress, q: Question)
    ensures var (t, status) := TurnOf(p, q);
            var r := ResultOf(q.model(Deciding(q.model, p.attempts)));
            && t.attempts == Deciding(q.model, p.attempts) + 1
            && (status.Stopped? <==> r.Err?)
            && (status.Again? <==> r.Ok? && r.value.stopReason == TOOL_USE)
            && (status.Again? ==> !EndsOpen(t.history))
            && (status.Finished? ==> (EndsOpen(t.history) <==> ToolUses(r.value.content) != []))
  {
    hide Deciding, Show, Play, ResultOf, Answer, ToolUses;
  }

  lemma {:induction false} LoopEndsOpen(p: Progress, turns: nat, q: Question)
    requires !EndsOpen(p.history)
    ensures var o := Loop(p, turns, q);
            o.error.None? && EndsOpen(o.end.history) <==> CutOff(p.attempts, turns, q)
    decreases turns
  {
    hide TurnOf, Deciding, ResultOf, ToolUses, EndsOpen;
    if 0 < turns {
      TurnEndsOpen(p, q);
      if TurnOf(p, q).1.Again? {
        LoopEndsOpen(TurnOf(p, q).0, turns - 1, q);
      }
    }
  }

  lemma CommitEndsOpen(h: History, q: Question)
    requires !EndsOpen(h)
    ensures EndsOpen(Committed(h, q)) <==> CutOff(0, TurnsLeft(q, 0), q)
  {
    LoopEndsOpen(Begin(h, q, []), TurnsLeft(q, 0), q);
  }

  predicate NoneCutOff(qs: seq<Question>) {
    forall i :: 0 <= i < |qs| ==> !CutOff(0, TurnsLeft(qs[i], 0), qs[i])
  }

  lemma {:induction false} ClosedExactly(qs: seq<Question>)
    ensures (forall k: nat :: k <= |qs| ==> !EndsOpen(Conversation(qs[..k]))) <==> NoneCutOff(qs)
  {
    hide EndsOpen, CutOff, Committed;
    if 0 < |qs| {
      var n := |qs| - 1;
      ClosedExactly(qs[..n]);
      assert qs[..|qs|] == qs;
      assert forall k: nat :: k <= n ==> qs[..n][..k] == qs[..k];
      assert NoneCutOff(qs) <==> NoneCutOff(qs[..n]) && !CutOff(0, TurnsLeft(qs[n], 0), qs[n]);
      assert qs[..n][..n] == qs[..n];
      if !EndsOpen(Conversation(qs[..n])) {
        CommitEndsOpen(Conversation(qs[..n]), qs[n]);
      }
    } else {
      NothingIsClosed();
    }
  }

  lemma NothingIsClosed()
    ensures !EndsOpen([])
  {
  }

  /** Tool pairing, exactly: a conversation is well paired if and only if no run was ended by
      a reply that calls tools and stops for another reason than tool use. Failed runs and
      runs that hit the turn limit do no harm. */
  lemma {:induction false} ConversationIsPairedExactly(qs: seq<Question>)
    ensures Paired(Conversation(qs)) <==> NoneCutOff(qs)
  {
    PairedWhileClosed(qs);
    ClosedExactly(qs);
  }

  /** A reply of one tool call. */
  function ToolCall(stopReason: string, usage: Usage): Attempt {
    Attempt([BlockStart(ToolUse, "t", "f"), MessageDelta(stopReason, usage)], Complete, false)
  }

  lemma ToolCallReads(stopReason: string, usage: Usage)
    ensures !Retried(ToolCall(stopReason, usage))
    ensures var r := ResultOf(ToolCall(stopReason, usage));
            r.Ok? && r.value.stopReason == stopReason && ToolUses(r.value.content) != []
  {
    var chunks := ToolCall(stopReason, usage).chunks;
    var block := Block(ToolUse, "t", "f", "", "");
    assert chunks[..1] == [chunks[0]] && chunks[..1][..0] == [];
    assert Play(chunks[..1][..0]) == Played(EMPTY, [], false);
    assert Play(chunks[..1]) == Played(EMPTY.(content := [block]), [], false);
    assert Play(chunks) == Played(Message([block], stopReason, usage), [], false);
    assert ToolUses([block]) == ToolUses([block][..0]) + [block];
  }

  /** Such a conversation: the first reply begins a tool call and runs into the token limit. */
  lemma TokenLimitCutsOff(q: Question, usage: Usage)
    requires 1 <= q.maxTurns && q.model(0) == ToolCall("max_tokens", usage)
    ensures !Paired(Conversation([q]))
  {
    ToolCallReads("max_tokens", usage);
    assert "max_tokens"[0] != TOOL_USE[0];
    hide Play, Paired, ToolUses, ToolCall;
    assert CutOff(0, TurnsLeft(q, 0), q);
    assert [q][0] == q;
    ConversationIsPairedExactly([q]);
  }

  /** The model calls tools only in messages that stop for tool use. */
  ghost predicate Disciplined(m: Model) {
    forall i: nat :: var msg := Play(m(i).chunks).msg; msg.stopReason != TOOL_USE ==> ToolUses(msg.content) == []
  }

  lemma {:induction false} DisciplineCutsNothingOff(attempts: nat, turns: nat, q: Question)
    requires Disciplined(q.model)
    ensures !CutOff(attempts, turns, q)
    decreases turns
  {
    hide Deciding, Play, ToolUses;
    if 0 < turns {
      DisciplineCutsNothingOff(Deciding(q.model, attempts) + 1, turns - 1, q);
    }
  }

  /** With a disciplined model, every conversation is well paired. */
  lemma {:induction false} DisciplinedConversationIsPaired(qs: seq<Question>)
    requires forall q <- qs :: Disciplined(q.model)
    ensures Paired(Conversation(qs)) && !EndsOpen(Conversation(qs))
  {
    forall i | 0 <= i < |qs| ensures !CutOff(0, TurnsLeft(qs[i], 0), qs[i]) {
      DisciplineCutsNothingOff(0, TurnsLeft(qs[i], 0), qs[i]);
    }
    ConversationIsPairedExactly(qs);
    PairedIsClosed(Conversation(qs));
  }

  // ----- What is sent to the model -----

  ghost predicate Bounded(h: History) {
    forall t, r | t in h && t.UserResults? && r in t.results ::
      |r.text| <= TruncateResult.MAX_TOOL_RESULT_BYTES + 200
  }

  /** Tool results have lengths that a 64-bit integer can hold. */
  ghost predicate Representable(q: Question) {
    forall i: nat :: |q.tools(i).text| < 0x8000_0000_0000_0000
  }

  lemma {:induction false} AnswersAreBounded(shown: seq<Event>, content: seq<Block>, q: Question, first: nat)
    requires Representable(q)
    ensures forall r <- Answer(shown, content, q.tools, first).results ::
              |r.text| <= TruncateResult.MAX_TOOL_RESULT_BYTES + 200
  {
    hide TruncateResult.Truncated;
    if 0 < |content| {
      var before := content[..|content| - 1];
      AnswersAreBounded(shown, before, q, first);
      TruncateResult.TruncatedIsBounded(q.tools(first + |Answer(shown, before, q.tools, first).results|).text);
    }
  }

  lemma TurnIsBounded(p: Progress, q: Question)
    requires Representable(q) && Bounded(p.history)
    ensures Bounded(TurnOf(p, q).0.history)
  {
    hide Deciding, Show, Play, Answer;
    var d := Deciding(q.model, p.attempts);
    var r := ResultOf(q.model(d));
    if r.Ok? {
      AnswersAreBounded(Show(p.events, Play(q.model(d).chunks).tokens), r.value.content, q, p.calls);
    }
  }

  lemma {:induction false} LoopIsBounded(p: Progress, turns: nat, q: Question)
    requires Representable(q) && Bounded(p.history)
    ensures Bounded(Loop(p, turns, q).end.history)
    decreases turns
  {
    hide TurnOf;
    if 0 < turns {
      TurnIsBounded(p, q);
      if TurnOf(p, q).1.Again? {
        LoopIsBounded(TurnOf(p, q).0, turns - 1, q);
      }
    }
  }

  /** No tool result in any conversation is longer than the cap and its notice. */
  lemma {:induction false} ConversationIsBounded(qs: seq<Question>)
    requires forall q <- qs :: Representable(q)
    ensures Bounded(Conversation(qs))
  {
    if 0 < |qs| {
      var n := |qs| - 1;
      ConversationIsBounded(qs[..n]);
      LoopIsBounded(Begin(Conversation(qs[..n]), qs[n], []), TurnsLeft(qs[n], 0), qs[n]);
    }
  }

  lemma {:induction false} LoopAttempts(p: Progress, turns: nat, q: Question)
    ensures p.attempts <= Loop(p, turns, q).end.attempts <= p.attempts + 2 * turns
    decreases turns
  {
    hide Show, Play, ResultOf, Answer, Retried;
    if 0 < turns {
      if TurnOf(p, q).1.Again? {
        LoopAttempts(TurnOf(p, q).0, turns - 1, q);
      }
    }
  }

  /** However the model behaves, one question costs at most two model calls per allowed turn. */
  lemma RunAttempts(h: History, q: Question, shown: seq<Event>)
    ensures Ran(h, q, shown).end.attempts <= 2 * TurnsLeft(q, 0)
  {
    LoopAttempts(Begin(h, q, shown), TurnsLeft(q, 0), q);
  }

  // ----- The event stream -----

  /** Pieces of text, and tool calls that finish before anything else happens. */
  predicate Body(es: seq<Event>) {
    var n := |es|;
    || n == 0
    || (es[n - 1].text != "" && es[n - 1] == TokenEvent(es[n - 1].text) && Body(es[..n - 1]))
    || (2 <= n && es[n - 2] == ToolEvent(es[n - 1].tool, "start") && es[n - 1] == ToolEvent(es[n - 1].tool, "done")
        && Body(es[..n - 2]))
  }

  lemma BodyGrows(es: seq<Event>, text: string, name: string)
    requires Body(es)
    ensures text != "" ==> Body(es + [TokenEvent(text)])
    ensures Body(es + [ToolEvent(name, "start"), ToolEvent(name, "done")])
  {
    if text != "" {
      BodyGrowsByText(es, text);
    }
    BodyGrowsByCall(es, name);
  }

  lemma BodyGrowsByText(es: seq<Event>, text: string)
    requires Body(es) && text != ""
    ensures Body(es + [TokenEvent(text)])
  {
    var all := es + [TokenEvent(text)];
    assert all[..|all| - 1] == es;
    assert all[|all| - 1] == TokenEvent(text);
  }

  lemma BodyGrowsByCall(es: seq<Event>, name: string)
    requires Body(es)
    ensures Body(es + [ToolEvent(name, "start"), ToolEvent(name, "done")])
  {
    var all := es + [ToolEvent(name, "start"), ToolEvent(name, "done")];
    assert all[..|all| - 2] == es;
    assert all[|all| - 2] == ToolEvent(name, "start") && all[|all| - 1] == ToolEvent(name, "done");
  }

  predicate Piece(es: seq<Event>, text: string, name: string) {
    || (text != "" && es == [TokenEvent(text)])
    || es == [ToolEvent(name, "start"), ToolEvent(name, "done")]
  }

  lemma BodySplits(es: seq<Event>) returns (front: seq<Event>, last: seq<Event>, text: string, name: string)
    requires Body(es) && 0 < |es|
    ensures es == front + last && Piece(last, text, name) && Body(front)
  {
    var e := es[|es| - 1];
    text, name := e.text, e.tool;
    var cut := if e.kind == Token then |es| - 1 else |es| - 2;
    front, last := es[..cut], es[cut..];
  }

  lemma {:induction false} BodyConcat(a: seq<Event>, b: seq<Event>)
    requires Body(a) && Body(b)
    ensures Body(a + b)
    decreases |b|
  {
    if |b| == 0 {
      assert a + b == a;
    } else {
      var front, last, text, name := BodySplits(b);
      BodyConcat(a, front);
      BodyGrows(a + front, text, name);
      Joined(a, front, last);
    }
  }

  lemma {:induction false} TokensAreNotEmpty(chunks: seq<Chunk>)
    ensures forall t <- Play(chunks).tokens :: 0 < |t|
  {
    if 0 < |chunks| {
      TokensAreNotEmpty(chunks[..|chunks| - 1]);
    }
  }

  lemma {:induction false} ShowIsABody(shown: seq<Event>, tokens: seq<string>) returns (body: seq<Event>)
    requires forall t <- tokens :: 0 < |t|
    ensures Body(body) && Show(shown, tokens) == shown + body
  {
    if |tokens| == 0 {
      body := [];
      assert shown + body == shown;
    } else {
      var last := tokens[|tokens| - 1];
      assert last in tokens;
      var front := ShowIsABody(shown, tokens[..|tokens| - 1]);
      BodyGrows(front, last, "");
      Joined(shown, front, [TokenEvent(last)]);
      body := front + [TokenEvent(last)];
    }
  }

  lemma {:induction false} AnswerIsABody(shown: seq<Event>, content: seq<Block>, tools: Tools, first: nat)
    returns (body: seq<Event>)
    ensures Body(body) && Answer(shown, content, tools, first).events == shown + body
  {
    hide TruncateResult.Truncated;
    if |content| == 0 {
      body := [];
      assert shown + body == shown;
    } else {
      var name := content[|content| - 1].name;
      body := AnswerIsABody(shown, content[..|content| - 1], tools, first);
      if content[|content| - 1].kind == ToolUse {
        BodyGrows(body, "", name);
        assert (shown + body) + [ToolEvent(name, "start")] + [ToolEvent(name, "done")]
            == shown + (body + [ToolEvent(name, "start"), ToolEvent(name, "done")]);
        body := body + [ToolEvent(name, "start"), ToolEvent(name, "done")];
      }
    }
  }

  lemma TurnIsABody(p: Progress, q: Question) returns (body: seq<Event>)
    ensures Body(body) && TurnOf(p, q).0.events == p.events + body
  {
    hide Deciding, Show, Play, Answer;
    var d := Deciding(q.model, p.attempts);
    TokensAreNotEmpty(q.model(d).chunks);
    var tokens := Play(q.model(d).chunks).tokens;
    body := ShowIsABody(p.events, tokens);
    var r := ResultOf(q.model(d));
    if r.Ok? && r.value.stopReason == TOOL_USE {
      var more := AnswerIsABody(Show(p.events, tokens), r.value.content, q.tools, p.calls);
      BodyConcat(body, more);
      Joined(p.events, body, more);
      body := body + more;
    }
  }

  /** What is shown at the end of a run. */
  function Ending(o: Outcome): seq<Event> {
    if o.error.Some? then []
    else if o.completed then [DONE]
    else [ErrorEvent(STEP_LIMIT), DONE]
  }

  lemma {:induction false} LoopShows(p: Progress, turns: nat, q: Question) returns (body: seq<Event>)
    ensures var o := Loop(p, turns, q);
            Body(body) && o.end.events == (p.events + body) + Ending(o) && (o.error.Some? ==> !o.completed)
    decreases turns
  {
    hide TurnOf, Body;
    if turns == 0 {
      body := NoBody(p.events);
    } else {
      body := TurnIsABody(p, q);
      var (t, status) := TurnOf(p, q);
      if status.Again? {
        var rest := LoopShows(t, turns - 1, q);
        BodyConcat(body, rest);
        Joined(p.events, body, rest);
        body := body + rest;
      }
    }
  }

  /** Every reply that a run asks for calls for tools, until it has no turn left. */
  predicate RunsOut(attempts: nat, turns: nat, q: Question)
    decreases turns
  {
    turns == 0 ||
    var d := Deciding(q.model, attempts);
    match ResultOf(q.model(d))
    case Err(_) => false
    case Ok(msg) => msg.stopReason == TOOL_USE && RunsOut(d + 1, turns - 1, q)
  }

  lemma {:induction false} LoopRunsOut(p: Progress, turns: nat, q: Question)
    ensures var o := Loop(p, turns, q);
            o.error.None? && !o.completed <==> RunsOut(p.attempts, turns, q)
    decreases turns
  {
    hide TurnOf, Deciding, ResultOf, ToolUses, EndsOpen;
    if 0 < turns {
      TurnEndsOpen(p, q);
      if TurnOf(p, q).1.Again? {
        LoopRunsOut(TurnOf(p, q).0, turns - 1, q);
      }
    }
  }

  /** A run that does not fail ends with the step-limit error exactly when it runs out. */
  lemma {:induction false} RunsOutExactly(h: History, q: Question, shown: seq<Event>)
    ensures var o := Ran(h, q, shown);
            o.error.None? && !o.completed <==> RunsOut(0, TurnsLeft(q, 0), q)
  {
    LoopRunsOut(Begin(h, q, shown), TurnsLeft(q, 0), q);
  }

  /** The step limit at work, whatever it is, zero included: the user sees an error and
      then done, and the unfinished exchange is committed. */
  lemma {:induction false} StepLimitIsCommitted(h: History, q: Question, shown: seq<Event>) returns (body: seq<Event>)
    requires RunsOut(0, TurnsLeft(q, 0), q)
    ensures Body(body)
    ensures Ran(h, q, shown).end.events == (shown + body) + [ErrorEvent(STEP_LIMIT), DONE]
    ensures h + [UserText(q.text)] <= Committed(h, q) == Ran(h, q, shown).end.history
  {
    body := LoopShows(Begin(h, q, shown), TurnsLeft(q, 0), q);
    RunsOutExactly(h, q, shown);
    RunsOutExactly(h, q, []);
    LoopIgnoresShown(Begin(h, q, shown), [], TurnsLeft(q, 0), q);
    LoopExtends(Begin(h, q, []), TurnsLeft(q, 0), q);
  }

  lemma NoBody(shown: seq<Event>) returns (body: seq<Event>)
    ensures Body(body) && shown + body == shown
  {
    body := [];
  }

  lemma Joined(a: seq<Event>, b: seq<Event>, c: seq<Event>)
    ensures (a + b) + c == a + (b + c)
  {
  }

  // ----- The output stream does not influence a run -----

  lemma {:induction false} AnswersIgnoreShown(
    a: seq<Event>, b: seq<Event>, content: seq<Block>, tools: Tools, first: nat)
    ensures Answer(a, content, tools, first).results == Answer(b, content, tools, first).results
  {
    hide TruncateResult.Truncated;
    if 0 < |content| {
      AnswersIgnoreShown(a, b, content[..|content| - 1], tools, first);
    }
  }

  lemma TurnIgnoresShown(p: Progress, b: seq<Event>, q: Question)
    ensures var (t, status) := TurnOf(p, q);
            var (u, status') := TurnOf(p.(events := b), q);
            status == status' && u == t.(events := u.events)
  {
    hide Deciding, Show, Play, Answer;
    var d := Deciding(q.model, p.attempts);
    var tokens := Play(q.model(d).chunks).tokens;
    var r := ResultOf(q.model(d));
    if r.Ok? {
      AnswersIgnoreShown(Show(p.events, tokens), Show(b, tokens), r.value.content, q.tools, p.calls);
    }
  }

  lemma {:induction false} LoopIgnoresShown(p: Progress, b: seq<Event>, turns: nat, q: Question)
    ensures var o, u := Loop(p, turns, q), Loop(p.(events := b), turns, q);
            o.error == u.error && o.completed == u.completed && o.end.history == u.end.history
    decreases turns
  {
    hide TurnOf;
    if 0 < turns {
      TurnIgnoresShown(p, b, q);
      var (t, status) := TurnOf(p, q);
      if status.Again? {
        LoopIgnoresShown(t, TurnOf(p.(events := b), q).0.events, turns - 1, q);
      }
    }
  }
}
