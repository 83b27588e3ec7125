/** `handleChat` of internal/server/server.go on one session. */
module ChatServer {
  import opened AgentHistory
  import opened AgentLoop
  import opened Events
  import opened GoSlice
  import opened ModelStream
  import C = UsageCounters
  import SessionStore

  datatype Body = NotJson | Parsed(sessionId: string, message: string)

  datatype Reply = BadRequest | StreamingUnsupported | Streamed

  /** The request, with the session's lock held. `q` is the world's part in answering it. */
  method HandleChat(
    body: Body, canFlush: bool, sess: SessionStore.Session, q: Question, errorText: string,
    room: nat -> nat, usage: C.Tracker?, sink: Sink)
    returns (reply: Reply)
    requires Fits(sess.history)
    requires body.Parsed? ==> q.text == body.message
    modifies sess`history, sess.history.arr, usage, sink
    ensures Fits(sess.history)
    ensures reply == Streamed <==> body.Parsed? && body.sessionId != "" && body.message != "" && canFlush
    ensures reply == Streamed ==>
              && View(sess.history) == Committed(old(View(sess.history)), q)
              && sink.events == Streaming(old(View(sess.history)), q, old(sink.events), errorText)
    ensures reply == StreamingUnsupported <==>
              body.Parsed? && body.sessionId != "" && body.message != "" && !canFlush
    // What the replies used is counted, whether or not the run succeeds.
    ensures reply == Streamed ==>
              Counts(usage, C.Fields(0, 0, 0, 0, 0), Ran(old(View(sess.history)), q, old(sink.events)).end.used)
    ensures reply != Streamed ==>
              View(sess.history) == old(View(sess.history)) && sink.events == old(sink.events)
              && Counts(usage, C.Fields(0, 0, 0, 0, 0), C.Fields(0, 0, 0, 0, 0))
  {
    if body.NotJson? || body.sessionId == "" || body.message == "" {
      return BadRequest;
    }
    if !canFlush {
      return StreamingUnsupported;
    }
    ghost var h, shown := View(sess.history), sink.events;
    var newHistory, error := Run(sess.history, q, room, usage, sink);
    LoopIgnoresShown(Begin(h, q, shown), [], TurnsLeft(q, 0), q);
    if error.Some? {
      sink.Emit(ErrorEvent(errorText));
    } else {
      sess.history := newHistory;
    }
    reply := Streamed;
  }

  /** The output stream after a request whose run starts from conversation `h`. */
  function Streaming(h: History, q: Question, shown: seq<Event>, errorText: string): seq<Event> {
    var o := Ran(h, q, shown);
    if o.error.Some? then o.end.events + [ErrorEvent(errorText)] else o.end.events
  }

  /** Event grammar: a streamed request shows text and closed tool calls, and then either
      one final done, with at most the step-limit error before it, or one final error and no done. */
  lemma {:induction false} StreamsFollowTheGrammar(h: History, q: Question, shown: seq<Event>, errorText: string)
    returns (body: seq<Event>)
    ensures AgentHistory.Body(body) && forall e <- body :: e.kind == Token || e.kind == Tool
    ensures var o := Ran(h, q, shown);
            Streaming(h, q, shown, errorText) ==
              (shown + body) + if o.error.Some? then [ErrorEvent(errorText)]
                               else if o.completed then [DONE]
                               else [ErrorEvent(STEP_LIMIT), DONE]
  {
    body := LoopShows(Begin(h, q, shown), TurnsLeft(q, 0), q);
    BodyHasNoEnd(body);
    assert (shown + body) + [] == shown + body;
  }

  /** What the user is told and what is kept: an error event means that the question failed
      and left no trace, except for a run whose every reply called for tools until it had no
      turn left. Its error is followed by done, and what there is of it is kept. */
  lemma {:induction false} ErrorMeansFailureExactly(h: History, q: Question, errorText: string)
    ensures (exists e <- Streaming(h, q, [], errorText) :: e.kind == Error) <==>
            Ran(h, q, []).error.Some? || RunsOut(0, TurnsLeft(q, 0), q)
    ensures Ran(h, q, []).error.Some? ==> Committed(h, q) == h
    ensures Ran(h, q, []).error.None? ==> h + [UserText(q.text)] <= Committed(h, q)
    ensures Ran(h, q, []).error.Some? ==> !RunsOut(0, TurnsLeft(q, 0), q)
  {
    hide Ran, Streaming, RunsOut, AgentHistory.Body, Committed;
    var body := StreamsFollowTheGrammar(h, q, [], errorText);
    RunsOutExactly(h, q, []);
    CommitsExactly(h, q);
    var o := Ran(h, q, []);
    HasErrorAtTheEnd(body, if o.error.Some? then [ErrorEvent(errorText)]
                           else if o.completed then [DONE]
                           else [ErrorEvent(STEP_LIMIT), DONE]);
  }

  lemma CommitsExactly(h: History, q: Question)
    ensures Ran(h, q, []).error.Some? ==> Committed(h, q) == h
    ensures Ran(h, q, []).error.None? ==> h + [UserText(q.text)] <= Committed(h, q)
  {
    hide Loop;
    LoopExtends(Begin(h, q, []), TurnsLeft(q, 0), q);
  }

  lemma HasErrorAtTheEnd(body: seq<Event>, ending: seq<Event>)
    requires forall e <- body :: e.kind != Error
    requires 0 < |ending| && forall i :: 0 < i < |ending| ==> ending[i].kind != Error
    ensures (exists e <- ([] + body) + ending :: e.kind == Error) <==> ending[0].kind == Error
  {
    var all := ([] + body) + ending;
    assert all[|body|] == ending[0];
    forall e <- all ensures e in body || e in ending {
    }
  }

  /** Such a run: one turn is allowed, and the reply calls a tool. */
  lemma StepLimitShowsError(h: History, q: Question, usage: Usage, errorText: string)
    requires q.maxTurns == 1 && q.model(0) == ToolCall(TOOL_USE, usage)
    ensures exists e <- Streaming(h, q, [], errorText) :: e.kind == Error
    ensures Ran(h, q, []).error.None? && h + [UserText(q.text)] <= Committed(h, q)
  {
    ToolCallReads(TOOL_USE, usage);
    assert RunsOut(0, TurnsLeft(q, 0), q) by {
      hide Play, ToolCall, ToolUses;
      assert RunsOut(1, 0, q);
    }
    hide Streaming, RunsOut, Ran, Committed;
    ErrorMeansFailureExactly(h, q, errorText);
  }

  lemma {:induction false} BodyHasNoEnd(es: seq<Event>)
    requires AgentHistory.Body(es)
    ensures forall e <- es :: e.kind == Token || e.kind == Tool
  {
    if 0 < |es| {
      var front, last, _, _ := BodySplits(es);
      BodyHasNoEnd(front);
      assert forall e <- es :: e in front || e in last;
    }
  }
}
