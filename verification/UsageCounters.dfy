/** The lock-free usage counters of internal/usage/usage.go.

    `Tracker` is the sequential view. The second half takes `Record` apart into its
    five atomic additions and `Snapshot` into its five atomic loads, with any number
    of recorders and readers interleaved. */
module UsageCounters {
  import Ledgers = BudgetLedger

  /** The five counters, in the order in which they are written and read: requests,
      input, output, cache read and cache creation tokens. */
  type Counters = c: seq<int> | |c| == 5 witness [0, 0, 0, 0, 0]

  const INPUT: nat := 1
  const OUTPUT: nat := 2

  function Fields(requests: int, input: int, output: int, cacheRead: int, cacheCreation: int): (r: Counters)
    ensures r[0] == requests && r[INPUT] == input && r[OUTPUT] == output
    ensures r[3] == cacheRead && r[4] == cacheCreation
  {
    var c: seq<int> := [requests, input, output, cacheRead, cacheCreation];
    assert |c| == 5;
    c
  }

  class Tracker {
    var requests: int
    var inputTokens: int
    var outputTokens: int
    var cacheReadTokens: int
    var cacheCreationTokens: int

    ghost function Value(): Counters
      reads this
    {
      Fields(requests, inputTokens, outputTokens, cacheReadTokens, cacheCreationTokens)
    }

    constructor ()
      ensures forall f :: 0 <= f < 5 ==> Value()[f] == 0
    {
      requests, inputTokens, outputTokens, cacheReadTokens, cacheCreationTokens := 0, 0, 0, 0, 0;
    }
  }

  /** `Record` on a possibly nil tracker. */
  method Record(t: Tracker?, input: int, output: int, cacheRead: int, cacheCreation: int)
    modifies t
    ensures t != null ==>
              && t.requests == old(t.requests) + 1
              && t.inputTokens == old(t.inputTokens) + input
              && t.outputTokens == old(t.outputTokens) + output
              && t.cacheReadTokens == old(t.cacheReadTokens) + cacheRead
              && t.cacheCreationTokens == old(t.cacheCreationTokens) + cacheCreation
    ensures t != null ==>
              var before, usage := old(t.Value()), Fields(1, input, output, cacheRead, cacheCreation);
              forall f :: 0 <= f < 5 ==> t.Value()[f] == before[f] + usage[f]
  {
    if t == null {
      return;
    }
    t.requests := t.requests + 1;
    t.inputTokens := t.inputTokens + input;
    t.outputTokens := t.outputTokens + output;
    t.cacheReadTokens := t.cacheReadTokens + cacheRead;
    t.cacheCreationTokens := t.cacheCreationTokens + cacheCreation;
  }

  method Snapshot(t: Tracker?) returns (c: Counters)
    ensures t != null ==> c == t.Value()
    ensures t != null ==>
              && c[0] == t.requests && c[INPUT] == t.inputTokens && c[OUTPUT] == t.outputTokens
              && c[3] == t.cacheReadTokens && c[4] == t.cacheCreationTokens
    ensures t == null ==> c == [0, 0, 0, 0, 0]
  {
    if t == null {
      return [0, 0, 0, 0, 0];
    }
    c := Fields(t.requests, t.inputTokens, t.outputTokens, t.cacheReadTokens, t.cacheCreationTokens);
  }

  // ----- Interleaved atomic accesses -----

  predicate AtMost(a: Counters, b: Counters) {
    forall f :: 0 <= f < 5 ==> a[f] <= b[f]
  }

  /** Calls of `Record` and of `Snapshot` under way, with `done` of their five accesses made. */
  datatype Recorder = Recorder(usage: Counters, done: nat)
  datatype Reader = Reader(loaded: Counters, done: nat)

  datatype Memory = Memory(counters: Counters, recorders: seq<Recorder>, readers: seq<Reader>)

  datatype Step =
    | Begin(input: nat, output: nat, cacheRead: nat, cacheCreation: nat)
    | Add(recorder: nat)
    | BeginRead
    | Load(reader: nat)

  predicate Enabled(m: Memory, s: Step) {
    match s
    case Add(i) => i < |m.recorders| && m.recorders[i].done < 5
    case Load(i) => i < |m.readers| && m.readers[i].done < 5
    case _ => true
  }

  function After(m: Memory, s: Step): Memory
    requires Enabled(m, s)
  {
    match s
    case Begin(input, output, cacheRead, cacheCreation) =>
      m.(recorders := m.recorders + [Recorder(Fields(1, input, output, cacheRead, cacheCreation), 0)])
    case Add(i) =>
      var r := m.recorders[i];
      m.(counters := m.counters[r.done := m.counters[r.done] + r.usage[r.done]],
         recorders := m.recorders[i := Recorder(r.usage, r.done + 1)])
    case BeginRead =>
      m.(readers := m.readers + [Reader([0, 0, 0, 0, 0], 0)])
    case Load(i) =>
      var r := m.readers[i];
      m.(readers := m.readers[i := Reader(r.loaded[r.done := m.counters[r.done]], r.done + 1)])
  }

  /** `trace` is a run: each memory follows from the one before it by an enabled step. */
  predicate IsRun(trace: seq<Memory>, steps: seq<Step>) {
    && |trace| == |steps| + 1
    && trace[0] == Memory([0, 0, 0, 0, 0], [], [])
    && forall i :: 0 <= i < |steps| ==> Enabled(trace[i], steps[i]) && trace[i + 1] == After(trace[i], steps[i])
  }

  /** What the first `n` recorders have added to field `f` so far. */
  function Added(rs: seq<Recorder>, n: nat, f: nat): int
    requires n <= |rs| && f < 5
  {
    if n == 0 then 0 else Added(rs, n - 1, f) + if f < rs[n - 1].done then rs[n - 1].usage[f] else 0
  }

  predicate Consistent(m: Memory) {
    && (forall f :: 0 <= f < 5 ==> m.counters[f] == Added(m.recorders, |m.recorders|, f))
    && (forall r <- m.recorders :: forall f :: 0 <= f < 5 ==> 0 <= r.usage[f])
  }

  lemma {:induction false} AddedByOneMore(rs: seq<Recorder>, r: Recorder, n: nat, f: nat)
    requires n <= |rs| && f < 5
    ensures Added(rs + [r], n, f) == Added(rs, n, f)
  {
    if 0 < n {
      AddedByOneMore(rs, r, n - 1, f);
    }
  }

  lemma {:induction false} AddedByStep(rs: seq<Recorder>, i: nat, n: nat, f: nat)
    requires i < |rs| && rs[i].done < 5 && n <= |rs| && f < 5
    ensures Added(rs[i := Recorder(rs[i].usage, rs[i].done + 1)], n, f)
            == Added(rs, n, f) + if i < n && f == rs[i].done then rs[i].usage[f] else 0
  {
    if 0 < n {
      AddedByStep(rs, i, n - 1, f);
    }
  }

  lemma StepKeepsConsistent(m: Memory, s: Step)
    requires Consistent(m) && Enabled(m, s)
    ensures Consistent(After(m, s))
    ensures AtMost(m.counters, After(m, s).counters)
  {
    var t := After(m, s);
    match s
    case Begin(_, _, _, _) =>
      forall f | 0 <= f < 5 ensures t.counters[f] == Added(t.recorders, |t.recorders|, f) {
        AddedByOneMore(m.recorders, t.recorders[|m.recorders|], |m.recorders|, f);
      }
    case Add(i) =>
      assert m.recorders[i] in m.recorders;
      forall f | 0 <= f < 5 ensures t.counters[f] == Added(t.recorders, |t.recorders|, f) {
        AddedByStep(m.recorders, i, |m.recorders|, f);
      }
    case _ =>
  }

  /** No addition is lost: at every moment the counters are the sum of what the recorders have added. */
  lemma {:induction false} NothingIsLost(trace: seq<Memory>, steps: seq<Step>, i: nat)
    requires IsRun(trace, steps) && i < |trace|
    ensures Consistent(trace[i])
  {
    if 0 < i {
      hide After, Consistent;
      NothingIsLost(trace, steps, i - 1);
      StepKeepsConsistent(trace[i - 1], steps[i - 1]);
    }
  }

  lemma {:induction false} CountersGrow(trace: seq<Memory>, steps: seq<Step>, i: nat, j: nat)
    requires IsRun(trace, steps) && i <= j < |trace|
    ensures AtMost(trace[i].counters, trace[j].counters)
    decreases j
  {
    hide After, Consistent;
    if i < j {
      CountersGrow(trace, steps, i, j - 1);
      NothingIsLost(trace, steps, j - 1);
      StepKeepsConsistent(trace[j - 1], steps[j - 1]);
    }
  }

  /** Reader `r` begins with step `b` of the run, and has made its five loads before memory `e`. */
  predicate ReadDuring(trace: seq<Memory>, steps: seq<Step>, r: nat, b: nat, e: nat) {
    && IsRun(trace, steps)
    && b < e < |trace|
    && steps[b].BeginRead? && r == |trace[b].readers|
    && r < |trace[e].readers| && trace[e].readers[r].done == 5
  }

  /** The fields loaded so far lie between `low` and `high`. */
  predicate LoadedWithin(low: Counters, r: Reader, high: Counters) {
    forall f :: 0 <= f < 5 && f < r.done ==> low[f] <= r.loaded[f] <= high[f]
  }

  lemma StepLoadsWithin(m: Memory, s: Step, r: nat, low: Counters)
    requires Enabled(m, s) && r < |m.readers| && m.readers[r].done <= 5
    requires LoadedWithin(low, m.readers[r], m.counters)
    requires AtMost(low, m.counters) && AtMost(m.counters, After(m, s).counters)
    ensures var t := After(m, s);
            && r < |t.readers| && t.readers[r].done <= 5
            && LoadedWithin(low, t.readers[r], t.counters)
  {
  }

  lemma {:induction false} LoadsStayWithin(trace: seq<Memory>, steps: seq<Step>, r: nat, b: nat, i: nat)
    requires IsRun(trace, steps)
    requires b < i < |trace| && steps[b].BeginRead? && r == |trace[b].readers|
    ensures r < |trace[i].readers| && trace[i].readers[r].done <= 5
    ensures LoadedWithin(trace[b].counters, trace[i].readers[r], trace[i].counters)
    decreases i
  {
    if b < i - 1 {
      hide After;
      LoadsStayWithin(trace, steps, r, b, i - 1);
      CountersGrow(trace, steps, b, i - 1);
      CountersGrow(trace, steps, i - 1, i);
      StepLoadsWithin(trace[i - 1], steps[i - 1], r, trace[b].counters);
    }
  }

  /** A torn read still lies, field by field, between the counters when it began and when it ended. */
  lemma TornReadIsBounded(trace: seq<Memory>, steps: seq<Step>, r: nat, b: nat, e: nat)
    requires ReadDuring(trace, steps, r, b, e)
    ensures AtMost(trace[b].counters, trace[e].readers[r].loaded)
    ensures AtMost(trace[e].readers[r].loaded, trace[e].counters)
  {
    LoadsStayWithin(trace, steps, r, b, e);
  }

  function Sample(c: Counters): int {
    c[INPUT] + c[OUTPUT]
  }

  /** Reads that do not overlap are ordered in every field, so the samples taken from one
      agent never decrease, and the ledger books exactly their difference. */
  lemma DisjointReadsAreMonotone(
    trace: seq<Memory>, steps: seq<Step>, r1: nat, b1: nat, e1: nat, r2: nat, b2: nat, e2: nat,
    s: Ledgers.Ledger, key: Ledgers.Key)
    requires ReadDuring(trace, steps, r1, b1, e1) && ReadDuring(trace, steps, r2, b2, e2) && e1 <= b2
    ensures var first, second := trace[e1].readers[r1].loaded, trace[e2].readers[r2].loaded;
            && AtMost(first, second)
            && var t := Ledgers.Recorded(s, s.day, key, Sample(first));
               Ledgers.Recorded(t, s.day, key, Sample(second)).daily == t.daily + Sample(second) - Sample(first)
  {
    hide After;
    TornReadIsBounded(trace, steps, r1, b1, e1);
    TornReadIsBounded(trace, steps, r2, b2, e2);
    CountersGrow(trace, steps, e1, b2);
  }

  /** What the first `n` recorders have to record in field `f`. */
  function Total(rs: seq<Recorder>, n: nat, f: nat): int
    requires n <= |rs| && f < 5
  {
    if n == 0 then 0 else Total(rs, n - 1, f) + rs[n - 1].usage[f]
  }

  lemma {:induction false} FinishedRecorders(rs: seq<Recorder>, n: nat, f: nat)
    requires n <= |rs| && f < 5 && forall r <- rs :: r.done == 5
    ensures Added(rs, n, f) == Total(rs, n, f)
  {
    if 0 < n {
      FinishedRecorders(rs, n - 1, f);
    }
  }

  /** Once every recorder has finished, the counters are exactly the sum of the recorded responses. */
  lemma QuietTotals(trace: seq<Memory>, steps: seq<Step>, i: nat, f: nat)
    requires IsRun(trace, steps) && i < |trace| && f < 5
    requires forall r <- trace[i].recorders :: r.done == 5
    ensures trace[i].counters[f] == Total(trace[i].recorders, |trace[i].recorders|, f)
  {
    NothingIsLost(trace, steps, i);
    FinishedRecorders(trace[i].recorders, |trace[i].recorders|, f);
  }

  /** The input and output tokens of all the responses that a run begins to record. */
  function Spent(steps: seq<Step>, n: nat): int
    requires n <= |steps|
  {
    if n == 0 then 0
    else
      Spent(steps, n - 1) +
      match steps[n - 1]
      case Begin(input, output, _, _) => input + output
      case _ => 0
  }

  function TotalSpent(rs: seq<Recorder>, n: nat): int
    requires n <= |rs|
  {
    Total(rs, n, INPUT) + Total(rs, n, OUTPUT)
  }

  lemma {:induction false} TotalsExtend(a: seq<Recorder>, b: seq<Recorder>, n: nat, f: nat)
    requires n <= |a| && n <= |b| && f < 5
    requires forall i :: 0 <= i < n ==> a[i].usage == b[i].usage
    ensures Total(a, n, f) == Total(b, n, f)
  {
    if 0 < n {
      TotalsExtend(a, b, n - 1, f);
    }
  }

  lemma StepSpends(m: Memory, s: Step)
    requires Enabled(m, s)
    ensures var (rs, t) := (m.recorders, After(m, s).recorders);
            TotalSpent(t, |t|) == TotalSpent(rs, |rs|) + Spent([s], 1)
  {
    var rs, t := m.recorders, After(m, s).recorders;
    assert Spent([s], 0) == 0;
    TotalsExtend(rs, t, |rs|, INPUT);
    TotalsExtend(rs, t, |rs|, OUTPUT);
  }

  lemma {:induction false} RecordersHoldTheSpent(trace: seq<Memory>, steps: seq<Step>, i: nat)
    requires IsRun(trace, steps) && i < |trace|
    ensures TotalSpent(trace[i].recorders, |trace[i].recorders|) == Spent(steps, i)
  {
    if 0 < i {
      hide After, TotalSpent;
      RecordersHoldTheSpent(trace, steps, i - 1);
      StepSpends(trace[i - 1], steps[i - 1]);
      assert Spent([steps[i - 1]], 0) == 0;
    } else {
      assert |trace[0].recorders| == 0;
    }
  }

  /** What the budget is charged for: once every recorder has finished, a sample is the input
      and output tokens of all recorded responses together, and nothing else. */
  lemma {:induction false} QuietSampleIsTheSpent(trace: seq<Memory>, steps: seq<Step>, i: nat)
    requires IsRun(trace, steps) && i < |trace|
    requires forall r <- trace[i].recorders :: r.done == 5
    ensures Sample(trace[i].counters) == Spent(steps, i)
  {
    QuietTotals(trace, steps, i, INPUT);
    QuietTotals(trace, steps, i, OUTPUT);
    RecordersHoldTheSpent(trace, steps, i);
  }
}
