/** Concurrent requests on one session object.

    Each request waits for the session's mutex, runs with the session's slice, appends
    turn after turn into shared memory, and ends by committing its slice or by giving it
    up. Steps of different requests interleave freely. Memory is a list of backing
    arrays; a slice is the front of one of them. */
module SerialChats {
  import opened AgentHistory
  import opened AgentLoop
  import opened Wrappers

  type Memory = seq<seq<Turn>>

  datatype Ref = Ref(arr: nat, len: nat)

  /** `start` is the conversation the request found when it got the lock. */
  datatype Request =
    | Waiting(q: Question)
    | Running(q: Question, start: History, slice: Ref)
    | Ended

  datatype State = State(
    memory: Memory,
    history: Ref,             // the session's History field
    holder: Option<nat>,      // who holds the session's mutex
    requests: seq<Request>,
    answered: seq<Question>)  // the questions of all runs so far, in lock order

  datatype Step =
    | Arrive(q: Question)
    | Lock(r: nat)
    | Append(r: nat, turn: Turn, spare: seq<Turn>)
    | Commit(r: nat)
    | GiveUp(r: nat)

  predicate InMemory(m: Memory, s: Ref) {
    s.arr < |m| && s.len <= |m[s.arr]|
  }

  function View(m: Memory, s: Ref): History
    requires InMemory(m, s)
  {
    m[s.arr][..s.len]
  }

  predicate IsRunning(s: State, r: nat) {
    r < |s.requests| && s.requests[r].Running? && InMemory(s.memory, s.requests[r].slice)
  }

  /** All the turns of a run, those it started from included. */
  function Full(r: Request): History
    requires r.Running?
  {
    Ran(r.start, r.q, []).end.history
  }

  predicate HasEnded(s: State, r: nat) {
    IsRunning(s, r) && s.requests[r].slice.len == |Full(s.requests[r])|
  }

  /** A run appends, one by one, the turns that `Run` adds to the conversation it started
      from, and when it has appended them all it commits or gives up, as `Run` succeeds or
      fails. What its slice then shows is not assumed: it depends on what memory holds. */
  predicate Enabled(s: State, e: Step) {
    match e
    case Arrive(_) => true
    case Lock(r) =>
      && r < |s.requests| && s.requests[r].Waiting?
      && s.holder.None? && InMemory(s.memory, s.history)
    case Append(r, turn, _) =>
      && IsRunning(s, r)
      && var (full, len) := (Full(s.requests[r]), s.requests[r].slice.len);
         len < |full| && turn == full[len]
    case Commit(r) => HasEnded(s, r) && Ran(s.requests[r].start, s.requests[r].q, []).error.None?
    case GiveUp(r) => HasEnded(s, r) && Ran(s.requests[r].start, s.requests[r].q, []).error.Some?
  }

  function After(s: State, e: Step): State
    requires Enabled(s, e)
  {
    match e
    case Arrive(q) => s.(requests := s.requests + [Waiting(q)])
    case Lock(r) =>
      var q := s.requests[r].q;
      s.(holder := Some(r), requests := s.requests[r := Running(q, View(s.memory, s.history), s.history)])
    case Append(r, turn, spare) =>
      var q := s.requests[r];
      var a := s.memory[q.slice.arr];
      if q.slice.len < |a| then
        s.(memory := s.memory[q.slice.arr := a[q.slice.len := turn]],
           requests := s.requests[r := q.(slice := Ref(q.slice.arr, q.slice.len + 1))])
      else
        s.(memory := s.memory + [a[..q.slice.len] + [turn] + spare],
           requests := s.requests[r := q.(slice := Ref(|s.memory|, q.slice.len + 1))])
    case Commit(r) =>
      s.(history := s.requests[r].slice, holder := None, requests := s.requests[r := Ended],
         answered := s.answered + [s.requests[r].q])
    case GiveUp(r) =>
      s.(holder := None, requests := s.requests[r := Ended], answered := s.answered + [s.requests[r].q])
  }

  ghost predicate IsRun(trace: seq<State>, steps: seq<Step>) {
    && |trace| == |steps| + 1
    && trace[0] == State([[]], Ref(0, 0), None, [], [])
    && forall i :: 0 <= i < |steps| ==> Enabled(trace[i], steps[i]) && trace[i + 1] == After(trace[i], steps[i])
  }

  /** Only the holder runs, on a slice that extends the session's or lives elsewhere. */
  ghost predicate Inv(s: State) {
    && InMemory(s.memory, s.history)
    && View(s.memory, s.history) == Conversation(s.answered)
    && (s.holder.Some? ==> s.holder.value < |s.requests| && s.requests[s.holder.value].Running?)
    && (forall r: nat :: r < |s.requests| && s.requests[r].Running? ==>
          && s.holder == Some(r)
          && s.requests[r].start == View(s.memory, s.history)
          && InMemory(s.memory, s.requests[r].slice)
          && s.history.len <= s.requests[r].slice.len
          && View(s.memory, s.requests[r].slice) <= Full(s.requests[r]))
  }

  lemma SameFull(r: Request, t: Request)
    requires r.Running? && t.Running? && r.start == t.start && r.q == t.q
    ensures Full(r) == Full(t)
  {
  }

  /** A run's turns go on from the conversation it finds. */
  lemma FullExtends(r: Request)
    requires r.Running?
    ensures r.start <= Full(r)
  {
    LoopExtends(Begin(r.start, r.q, []), TurnsLeft(r.q, 0), r.q);
  }

  lemma AppendKeepsInv(s: State, e: Step)
    requires Inv(s) && Enabled(s, e) && e.Append?
    ensures Inv(After(s, e))
  {
    hide Conversation, Full;
    var t := After(s, e);
    var (v, full) := (View(s.memory, s.requests[e.r].slice), Full(s.requests[e.r]));
    assert View(t.memory, t.requests[e.r].slice) == v + [e.turn];
    assert v + [e.turn] <= full;
    assert Full(t.requests[e.r]) == full by { SameFull(s.requests[e.r], t.requests[e.r]); }
    assert t.memory[s.history.arr][..s.history.len] == s.memory[s.history.arr][..s.history.len];
  }

  lemma AnsweredGrows(answered: seq<Question>, q: Question)
    ensures Conversation(answered + [q]) == Committed(Conversation(answered), q)
  {
    hide Committed;
    assert (answered + [q])[..|answered|] == answered;
  }

  lemma CommitUnfolds(h: History, q: Question)
    ensures Committed(h, q) == if Ran(h, q, []).error.None? then Ran(h, q, []).end.history else h
  {
    hide Ran;
  }

  lemma EndKeepsInv(s: State, e: Step)
    requires Inv(s) && Enabled(s, e) && (e.Commit? || e.GiveUp?)
    ensures Inv(After(s, e))
  {
    hide Ran, Conversation, Committed;
    assert View(s.memory, s.requests[e.r].slice) == Full(s.requests[e.r]);
    AnsweredGrows(s.answered, s.requests[e.r].q);
    CommitUnfolds(s.requests[e.r].start, s.requests[e.r].q);
  }

  lemma StartKeepsInv(s: State, e: Step)
    requires Inv(s) && Enabled(s, e) && (e.Arrive? || e.Lock?)
    ensures Inv(After(s, e))
  {
    hide Conversation, Full;
    if e.Lock? {
      FullExtends(After(s, e).requests[e.r]);
    }
  }

  lemma StepKeepsInv(s: State, e: Step)
    requires Inv(s) && Enabled(s, e)
    ensures Inv(After(s, e))
  {
    hide *;
    match e
    case Append(_, _, _) => AppendKeepsInv(s, e);
    case Commit(_) => EndKeepsInv(s, e);
    case GiveUp(_) => EndKeepsInv(s, e);
    case _ => StartKeepsInv(s, e);
  }

  lemma {:induction false} Invariant(trace: seq<State>, steps: seq<Step>, i: nat)
    requires IsRun(trace, steps) && i < |trace|
    ensures Inv(trace[i])
  {
    if i > 0 {
      Invariant(trace, steps, i - 1);
      StepKeepsInv(trace[i - 1], steps[i - 1]);
    }
  }

  /** Serialisability: at every moment of every interleaving, the session's history is the
      conversation of the finished runs in lock order, successful ones contributing their
      turns and failed ones nothing, whatever running requests have appended meanwhile.
      In particular the slice a request commits shows what `Run` returns for it. */
  lemma HistoryIsSerial(trace: seq<State>, steps: seq<Step>, i: nat)
    requires IsRun(trace, steps) && i < |trace|
    ensures var s := trace[i];
            InMemory(s.memory, s.history) && View(s.memory, s.history) == Conversation(s.answered)
  {
    Invariant(trace, steps, i);
  }

  /** What a running request appends is never disturbed: a step of another request leaves its slice as it was. */
  lemma RunningSlicesAreStable(trace: seq<State>, steps: seq<Step>, i: nat, r: nat)
    requires IsRun(trace, steps) && i < |steps|
    requires IsRunning(trace[i], r) && IsRunning(trace[i + 1], r)
    ensures var s, t := trace[i], trace[i + 1];
            var v := View(t.memory, t.requests[r].slice);
            if steps[i].Append? && steps[i].r == r
            then v == View(s.memory, s.requests[r].slice) + [steps[i].turn]
            else v == View(s.memory, s.requests[r].slice)
  {
    Invariant(trace, steps, i);
  }

  /** The mutex is never lost: when no request is running, every waiting one can go ahead. */
  lemma NobodyWaitsForNobody(trace: seq<State>, steps: seq<Step>, i: nat, r: nat)
    requires IsRun(trace, steps) && i < |trace|
    requires r < |trace[i].requests| && trace[i].requests[r].Waiting?
    requires forall k :: 0 <= k < |trace[i].requests| ==> !trace[i].requests[k].Running?
    ensures Enabled(trace[i], Lock(r))
  {
    Invariant(trace, steps, i);
  }
}
