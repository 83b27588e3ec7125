/** The conservation of tokens with the counters taken apart: every agent's counters are
    memory that recorders add to and readers load from, one atomic access at a time, and a
    fetch is such a reader. That a fetched value is one the agent's counter took between its
    last sample and now, which module TokenConservation demands of a fetch, is proved here. */
module SampledSpending {
  import opened Sums
  import opened Wrappers
  import BudgetLedger
  import C = UsageCounters
  import T = TokenConservation

  /** The read that answers the poller's fetch, and the counters when it began. */
  datatype Fetching = NoFetch | Fetching(agent: nat, reader: nat, low: C.Counters)

  datatype System = System(world: T.World, memories: seq<C.Memory>, fetching: Fetching)

  /** `Access` is one atomic access to an agent's counters, by a recorder or by any reader. */
  datatype Step =
    | Access(agent: nat, access: C.Step)
    | StartFetch(agent: nat)
    | FinishFetch
    | Other(step: T.Step)

  const ZERO := C.Memory([0, 0, 0, 0, 0], [], [])

  function Start(today: int): System {
    System(T.Start(today), [], NoFetch)
  }

  predicate Answers(w: T.World, a: nat) {
    && w.poll.Polling? && a < |w.home| && w.home[a] in w.poll.todo
    && (T.Maps(w.poll.targets, w.home[a], a) || T.Maps(w.listed, w.home[a], a))
  }

  predicate Reads(s: System, a: nat, r: nat) {
    a < |s.memories| && r < |s.memories[a].readers|
  }

  /** The poller does one thing at a time, so a fetch under way can only finish or fail. */
  predicate Enabled(s: System, e: Step) {
    match e
    case Access(a, access) => a < |s.memories| && a < |s.world.spent| && C.Enabled(s.memories[a], access)
    case StartFetch(a) =>
      s.fetching.NoFetch? && Answers(s.world, a) && s.world.poll.sample.None? && a < |s.memories|
    case FinishFetch =>
      && s.fetching.Fetching? && Answers(s.world, s.fetching.agent)
      && Reads(s, s.fetching.agent, s.fetching.reader)
      && s.memories[s.fetching.agent].readers[s.fetching.reader].done == 5
    case Other(t) =>
      && !t.Spend? && !t.Fetch? && T.Enabled(s.world, t)
      && (t.BeginPoll? || t.RecordSample? || t.EndPoll? ==> s.fetching.NoFetch?)
      && (t.FetchFails? && s.fetching.Fetching? ==> T.Serves(s.world.home, t.key, s.fetching.agent))
  }

  function After(s: System, e: Step): System
    requires Enabled(s, e)
  {
    match e
    case Access(a, access) =>
      var m := C.After(s.memories[a], access);
      s.(memories := s.memories[a := m], world := s.world.(spent := s.world.spent[a := C.Sample(m.counters)]))
    case StartFetch(a) =>
      var m := s.memories[a];
      System(s.world, s.memories[a := C.After(m, C.BeginRead)], Fetching(a, |m.readers|, m.counters))
    case FinishFetch =>
      var a, w := s.fetching.agent, s.world;
      var v := C.Sample(s.memories[a].readers[s.fetching.reader].loaded);
      s.(world := w.(poll := T.Polling(w.poll.targets, w.poll.todo - {w.home[a]}, Some(T.Sample(a, v)))),
         fetching := NoFetch)
    case Other(t) =>
      System(T.After(s.world, t),
             if t.List? then s.memories + [ZERO] else s.memories,
             if t.FetchFails? then NoFetch else s.fetching)
  }

  predicate IsRun(today: int, steps: seq<Step>, trace: seq<System>) {
    && |trace| == |steps| + 1
    && trace[0] == Start(today)
    && forall i :: 0 <= i < |steps| ==> Enabled(trace[i], steps[i]) && trace[i + 1] == After(trace[i], steps[i])
  }

  // ----- What every step keeps -----

  /** True counters are what the memories hold. */
  predicate Counted(spent: seq<int>, memories: seq<C.Memory>) {
    && |spent| == |memories|
    && forall a :: 0 <= a < |memories| ==> Holds(spent[a], memories[a])
  }

  predicate Holds(spent: int, m: C.Memory) {
    C.Consistent(m) && spent == C.Sample(m.counters)
  }

  /** A fetch under way began after its agent's last sample was recorded. */
  predicate Sound(s: System) {
    s.fetching.Fetching? ==>
      var Fetching(a, r, low) := s.fetching;
      && s.world.poll.Polling? && s.world.poll.sample.None?
      && Reads(s, a, r) && a < |s.world.seen|
      && s.memories[a].readers[r].done <= 5
      && s.world.seen[a] <= C.Sample(low)
      && C.AtMost(low, s.memories[a].counters)
      && C.LoadedWithin(low, s.memories[a].readers[r], s.memories[a].counters)
  }

  predicate Inv(s: System) {
    && T.Shape(s.world) && T.PollShape(s.world)
    && Counted(s.world.spent, s.memories)
    && Sound(s)
  }

  /** The step of TokenConservation that a step amounts to. */
  function Abstract(s: System, e: Step): T.Step
    requires Inv(s) && Enabled(s, e)
  {
    match e
    case Access(a, access) =>
      AccessGrows(s.memories[a], access);
      T.Spend(a, C.Sample(C.After(s.memories[a], access).counters) - C.Sample(s.memories[a].counters))
    case StartFetch(a) => T.Spend(a, 0)
    case FinishFetch =>
      T.Fetch(s.fetching.agent, C.Sample(s.memories[s.fetching.agent].readers[s.fetching.reader].loaded))
    case Other(t) => t
  }

  lemma AccessGrows(m: C.Memory, access: C.Step)
    requires C.Consistent(m) && C.Enabled(m, access)
    ensures var t := C.After(m, access);
            C.Consistent(t) && C.AtMost(m.counters, t.counters) && C.Sample(m.counters) <= C.Sample(t.counters)
  {
    C.StepKeepsConsistent(m, access);
  }

  lemma AccessKeepsSound(s: System, a: nat, access: C.Step)
    requires Inv(s) && Enabled(s, Access(a, access))
    ensures Sound(After(s, Access(a, access)))
  {
    hide C.Consistent, T.Shape, T.PollShape, C.After;
    AccessGrows(s.memories[a], access);
    if s.fetching.Fetching? && s.fetching.agent == a {
      C.StepLoadsWithin(s.memories[a], access, s.fetching.reader, s.fetching.low);
    }
  }

  lemma AccessRefines(s: System, a: nat, access: C.Step)
    requires Inv(s) && Enabled(s, Access(a, access))
    ensures var (e, t) := (Access(a, access), Abstract(s, Access(a, access)));
            && T.Enabled(s.world, t) && After(s, e).world == T.After(s.world, t)
            && Counted(After(s, e).world.spent, After(s, e).memories)
  {
    hide C.Consistent, T.Shape, T.PollShape, C.After;
    AccessGrows(s.memories[a], access);
  }

  lemma StartRefines(s: System, a: nat)
    requires Inv(s) && Enabled(s, StartFetch(a))
    ensures var t := After(s, StartFetch(a));
            && T.Enabled(s.world, T.Spend(a, 0)) && t.world == T.After(s.world, T.Spend(a, 0))
            && Counted(t.world.spent, t.memories) && Sound(t)
  {
    hide C.Consistent, T.PollShape;
    assert s.world.spent[a := s.world.spent[a] + 0] == s.world.spent;
    AccessGrows(s.memories[a], C.BeginRead);
  }

  /** The fetched value lies between the agent's last sample and its true counter. */
  lemma FinishRefines(s: System)
    requires Inv(s) && Enabled(s, FinishFetch)
    ensures var t := Abstract(s, FinishFetch);
            && T.Enabled(s.world, t) && After(s, FinishFetch).world == T.After(s.world, t)
            && Sound(After(s, FinishFetch))
  {
    hide C.Consistent, T.PollShape;
    var Fetching(a, r, low) := s.fetching;
    assert Holds(s.world.spent[a], s.memories[a]);
  }

  lemma OtherKeeps(s: System, t: T.Step)
    requires Inv(s) && Enabled(s, Other(t))
    ensures Counted(After(s, Other(t)).world.spent, After(s, Other(t)).memories) && Sound(After(s, Other(t)))
  {
    hide T.PollShape, BudgetLedger.Recorded;
    assert Holds(0, ZERO);
  }

  /** Every step is a step of TokenConservation and keeps the invariant. */
  lemma StepRefines(s: System, e: Step)
    requires Inv(s) && Enabled(s, e)
    ensures T.Enabled(s.world, Abstract(s, e)) && After(s, e).world == T.After(s.world, Abstract(s, e))
    ensures Inv(After(s, e))
  {
    hide T.Shape, T.PollShape, C.Consistent, Counted, Sound, T.After, T.Enabled;
    match e {
      case Access(a, access) =>
        AccessRefines(s, a, access);
        AccessKeepsSound(s, a, access);
      case StartFetch(a) => StartRefines(s, a);
      case FinishFetch => FinishRefines(s);
      case Other(t) => OtherKeeps(s, t);
    }
    T.StepKeepsShape(s.world, Abstract(s, e));
  }

  lemma StartIsSound(today: int)
    ensures Inv(Start(today)) && T.IsRun(today, [], [T.Start(today)])
  {
  }

  // ----- Main results -----

  /** Refinement: the worlds of every run are those of a run of TokenConservation. */
  lemma {:induction false} RunRefines(today: int, steps: seq<Step>, trace: seq<System>, i: nat)
    returns (coarse: seq<T.Step>, worlds: seq<T.World>)
    requires IsRun(today, steps, trace) && i < |trace|
    ensures |coarse| == i && T.IsRun(today, coarse, worlds) && worlds[i] == trace[i].world
    ensures Inv(trace[i])
  {
    if i == 0 {
      coarse, worlds := [], [T.Start(today)];
      StartIsSound(today);
    } else {
      hide Inv, T.Enabled, T.After, Enabled, After;
      coarse, worlds := RunRefines(today, steps, trace, i - 1);
      var s, e := trace[i - 1], steps[i - 1];
      StepRefines(s, e);
      coarse, worlds := T.Extend(today, coarse, worlds, Abstract(s, e));
    }
  }

  lemma TrueCounters(s: System)
    requires Inv(s)
    ensures |s.world.spent| == |s.memories|
    ensures forall a :: 0 <= a < |s.memories| ==> s.world.spent[a] == C.Sample(s.memories[a].counters)
  {
    hide T.Shape, T.PollShape, C.Consistent;
  }

  /** Conservation from the counters to the ledger: with lock-free counters, torn reads,
      failed fetches, replaced agents, prunes and midnights, the input and output tokens in
      all agents' counters are the ledgers of all days, plus what has not been polled, plus
      what departed agents took along, plus what replacements overtook. */
  lemma CountersAreConserved(today: int, steps: seq<Step>, trace: seq<System>, i: nat)
    requires IsRun(today, steps, trace) && i < |trace|
    ensures var w := trace[i].world;
            && |w.spent| == |w.seen| == |trace[i].memories|
            && (forall a :: 0 <= a < |w.spent| ==> w.spent[a] == C.Sample(trace[i].memories[a].counters))
            && Sum(w.spent) == T.Booked(w.closed) + w.ledger.daily
                               + T.Unpolled(w, true, |w.spent|) + T.Unpolled(w, false, |w.spent|)
                               + T.TotalOvertaken(w.log)
  {
    hide Inv, T.Enabled, T.After, Enabled, After;
    var coarse, worlds := RunRefines(today, steps, trace, i);
    T.TokensAreConserved(today, coarse, worlds, i);
    TrueCounters(trace[i]);
  }
}
