/** Where every token goes: agents, poller and ledger as one step system.

    An agent is one incarnation of a process with its own counter; a key is served
    by a succession of agents. `listed` is the provider's map from keys to agents.
    A poll copies it, fetches each key once, records each sample some time after
    fetching it, and prunes at the end; agents spend, appear, are replaced and
    disappear at any moment, and budget reads may roll the day at any moment. A
    fetch fails or returns a value the agent's counter took between its last sample
    and now; module SampledSpending proves that a torn read of the counters does. */
module TokenConservation {
  import opened BudgetLedger
  import opened Sums
  import opened Wrappers

  /** One `Record` call: the day it was booked on, whose tokens, how many were booked,
      and how many were missed because the sample was taken for growth of another agent. */
  datatype Entry = Entry(day: int, agent: nat, amount: int, overtaken: int)

  datatype Sample = Sample(agent: nat, value: int)

  datatype Poll = Idle | Polling(targets: map<Key, nat>, todo: set<Key>, sample: Option<Sample>)

  datatype World = World(
    ledger: Ledger,
    closed: seq<(int, int)>,   // finished days and their final totals
    home: seq<Key>,            // the key each agent serves
    spent: seq<int>,           // each agent's true counter
    seen: seq<int>,            // each agent's last recorded sample
    listed: map<Key, nat>,
    owner: map<Key, nat>,      // whose sample the ledger last saw under a key
    poll: Poll,
    log: seq<Entry>)

  datatype Step =
    | Spend(agent: nat, tokens: nat)
    | List(key: Key)           // a new agent serves the key, in place of any other
    | Unlist(key: Key)
    | BeginPoll
    | Fetch(agent: nat, value: int)
    | FetchFails(key: Key)
    | RecordSample(today: int)
    | EndPoll
    | Read(today: int)         // Exceeded or Snapshot

  function Start(today: int): World {
    World(Ledger(today, 0, map[]), [], [], [], [], map[], map[], Idle, [])
  }

  /** A fetch goes to the address that the poll copied. The agent that answers there is the
      one listed when the poll began, or one that has taken the address over since, as a
      restarted agent does behind a fixed address. */
  predicate Enabled(w: World, s: Step) {
    match s
    case Spend(a, _) => a < |w.spent|
    case List(_) => true
    case Unlist(k) => k in w.listed
    case BeginPoll => w.poll.Idle?
    case Fetch(a, v) =>
      && w.poll.Polling? && w.poll.sample.None?
      && a < |w.home| && a < |w.seen| && a < |w.spent| && w.home[a] in w.poll.todo
      && (Maps(w.poll.targets, w.home[a], a) || Maps(w.listed, w.home[a], a))
      && w.seen[a] <= v <= w.spent[a]
    case FetchFails(k) => w.poll.Polling? && w.poll.sample.None? && k in w.poll.todo
    case RecordSample(today) =>
      && w.poll.Polling? && w.poll.sample.Some?
      && w.poll.sample.value.agent < |w.home| && w.poll.sample.value.agent < |w.seen|
      && w.ledger.day <= today
    case EndPoll => w.poll.Polling? && w.poll.sample.None? && w.poll.todo == {}
    case Read(today) => w.ledger.day <= today
  }

  predicate Maps(m: map<Key, nat>, k: Key, a: nat) {
    k in m && m[k] == a
  }

  /** The tokens that the ledger takes for already counted: the old value, when another
      agent's first sample has reached it. */
  function Overtaken(w: World, a: nat, v: int): int
    requires a < |w.home|
  {
    var k := w.home[a];
    if k in w.ledger.last && !Maps(w.owner, k, a) && w.ledger.last[k] <= v then w.ledger.last[k] else 0
  }

  function Close(l: Ledger, closed: seq<(int, int)>, today: int): seq<(int, int)> {
    if today != l.day then closed + [(l.day, l.daily)] else closed
  }

  function After(w: World, s: Step): World
    requires Enabled(w, s)
  {
    match s
    case Spend(a, n) => w.(spent := w.spent[a := w.spent[a] + n])
    case List(k) =>
      w.(home := w.home + [k], spent := w.spent + [0], seen := w.seen + [0], listed := w.listed[k := |w.home|])
    case Unlist(k) => w.(listed := w.listed - {k})
    case BeginPoll => w.(poll := Polling(w.listed, w.listed.Keys, None))
    case Fetch(a, v) => w.(poll := Polling(w.poll.targets, w.poll.todo - {w.home[a]}, Some(Sample(a, v))))
    case FetchFails(k) => w.(poll := w.poll.(todo := w.poll.todo - {k}))
    case RecordSample(today) =>
      var Sample(a, v) := w.poll.sample.value;
      var l := Recorded(w.ledger, today, w.home[a], v);
      w.(ledger := l,
         closed := Close(w.ledger, w.closed, today),
         seen := w.seen[a := v],
         owner := w.owner[w.home[a] := a],
         poll := w.poll.(sample := None),
         log := w.log + [Entry(today, a, l.daily - Roll(w.ledger, today).daily, Overtaken(w, a, v))])
    case EndPoll => w.(ledger := Pruned(w.ledger, w.poll.targets.Keys), poll := Idle)
    case Read(today) => w.(ledger := Roll(w.ledger, today), closed := Close(w.ledger, w.closed, today))
  }

  /** The worlds of a run, from the start on `today`. */
  predicate IsRun(today: int, steps: seq<Step>, trace: seq<World>) {
    && |trace| == |steps| + 1
    && trace[0] == Start(today)
    && forall i :: 0 <= i < |steps| ==> Enabled(trace[i], steps[i]) && trace[i + 1] == After(trace[i], steps[i])
  }

  // ----- Totals over the log -----

  function Booked(closed: seq<(int, int)>): int {
    if |closed| == 0 then 0 else Booked(closed[..|closed| - 1]) + closed[|closed| - 1].1
  }

  function DayTotal(log: seq<Entry>, day: int): int {
    if |log| == 0 then 0
    else
      var e := log[|log| - 1];
      DayTotal(log[..|log| - 1], day) + if e.day == day then e.amount else 0
  }

  function AgentTotal(log: seq<Entry>, a: nat): int {
    if |log| == 0 then 0
    else
      var e := log[|log| - 1];
      AgentTotal(log[..|log| - 1], a) + if e.agent == a then e.amount else 0
  }

  function AgentOvertaken(log: seq<Entry>, a: nat): int {
    if |log| == 0 then 0
    else
      var e := log[|log| - 1];
      AgentOvertaken(log[..|log| - 1], a) + if e.agent == a then e.overtaken else 0
  }

  function TotalOvertaken(log: seq<Entry>): int {
    if |log| == 0 then 0 else TotalOvertaken(log[..|log| - 1]) + log[|log| - 1].overtaken
  }

  // ----- The invariant -----

  /** What the ledger holds for the agent's key is this agent's own last sample, if it has one. */
  predicate Current(w: World, a: nat) {
    && a < |w.home| == |w.seen|
    && (w.seen[a] == 0 || (w.home[a] in w.ledger.last && Maps(w.owner, w.home[a], a)))
  }

  predicate Serves(home: seq<Key>, k: Key, a: nat) {
    a < |home| && home[a] == k
  }

  predicate Shape(w: World) {
    && |w.spent| == |w.seen| == |w.home|
    && (forall a :: 0 <= a < |w.seen| ==> 0 <= w.seen[a] <= w.spent[a])
    && (forall k <- w.listed :: Serves(w.home, k, w.listed[k]) && Current(w, w.listed[k]))
    && (forall k <- w.ledger.last ::
          k in w.owner && Serves(w.home, k, w.owner[k]) && w.ledger.last[k] == w.seen[w.owner[k]])
  }

  /** If agent `a` is sampled next under its key, no other agent of the key will be un-sampled by it. */
  predicate Latest(w: World, a: nat) {
    && Current(w, a)
    && (w.home[a] in w.listed ==>
          w.listed[w.home[a]] == a || Unseen(w, w.listed[w.home[a]]))
  }

  predicate Unseen(w: World, a: nat) {
    a < |w.seen| && w.seen[a] == 0
  }

  predicate PollShape(w: World) {
    w.poll.Polling? ==>
      && w.poll.todo <= w.poll.targets.Keys
      && (forall k <- w.poll.targets :: Serves(w.home, k, w.poll.targets[k]))
      && (forall k <- w.poll.todo :: Latest(w, w.poll.targets[k]))
      && (forall k <- w.listed :: k !in w.poll.targets ==> Unseen(w, w.listed[k]))
      && (w.poll.sample.Some? ==> Taken(w, w.poll.targets, w.poll.todo, w.poll.sample.value))
  }

  /** A sample that has been fetched and not yet recorded. */
  predicate Taken(w: World, targets: map<Key, nat>, todo: set<Key>, p: Sample) {
    && Latest(w, p.agent) && p.agent < |w.seen| == |w.spent|
    && w.home[p.agent] in targets && w.home[p.agent] !in todo
    && w.seen[p.agent] <= p.value <= w.spent[p.agent]
  }

  /** Per agent, what was booked and what was overtaken add up to what was seen of it. */
  predicate Accounts(seen: seq<int>, log: seq<Entry>) {
    && (forall e <- log :: e.agent < |seen| && 0 <= e.amount && 0 <= e.overtaken)
    && (forall a: nat :: a < |seen| ==> AgentTotal(log, a) + AgentOvertaken(log, a) == seen[a])
  }

  predicate Balance(seen: seq<int>, closed: seq<(int, int)>, daily: int, log: seq<Entry>) {
    Sum(seen) == Booked(closed) + daily + TotalOvertaken(log)
  }

  /** Every day's total is what the log says was booked on that day. */
  predicate Calendar(day: int, daily: int, closed: seq<(int, int)>, log: seq<Entry>) {
    && (forall i :: 0 <= i < |closed| ==> closed[i].0 < day)
    && (forall i, j :: 0 <= i < j < |closed| ==> closed[i].0 < closed[j].0)
    && (forall i :: 0 <= i < |closed| ==> closed[i].1 == DayTotal(log, closed[i].0))
    && daily == DayTotal(log, day)
    && (forall e <- log :: e.day <= day)
  }

  predicate Inv(w: World) {
    && Shape(w) && PollShape(w)
    && Accounts(w.seen, w.log)
    && Balance(w.seen, w.closed, w.ledger.daily, w.log)
    && Calendar(w.ledger.day, w.ledger.daily, w.closed, w.log)
  }

  // ----- Every step keeps it -----

  lemma SpendKeepsShape(w: World, a: nat, n: nat)
    requires Shape(w) && PollShape(w) && Enabled(w, Spend(a, n))
    ensures Shape(After(w, Spend(a, n))) && PollShape(After(w, Spend(a, n)))
  {
  }

  lemma ListKeepsShape(w: World, k: Key)
    requires Shape(w) && PollShape(w)
    ensures Shape(After(w, List(k))) && PollShape(After(w, List(k)))
  {
  }

  lemma UnlistKeepsShape(w: World, k: Key)
    requires Shape(w) && PollShape(w) && Enabled(w, Unlist(k))
    ensures Shape(After(w, Unlist(k))) && PollShape(After(w, Unlist(k)))
  {
  }

  lemma BeginKeepsShape(w: World)
    requires Shape(w) && Enabled(w, BeginPoll)
    ensures Shape(After(w, BeginPoll)) && PollShape(After(w, BeginPoll))
  {
  }

  lemma FetchKeepsShape(w: World, s: Step)
    requires s.Fetch? || s.FetchFails?
    requires Shape(w) && PollShape(w) && Enabled(w, s)
    ensures Shape(After(w, s)) && PollShape(After(w, s))
  {
  }

  lemma RecordKeepsShape(w: World, s: Step)
    requires s.RecordSample?
    requires Shape(w) && PollShape(w) && Enabled(w, s)
    ensures Shape(After(w, s))
  {
  }

  lemma RecordKeepsPollShape(w: World, s: Step)
    requires s.RecordSample?
    requires Shape(w) && PollShape(w) && Enabled(w, s)
    ensures PollShape(After(w, s))
  {
  }

  lemma EndKeepsShape(w: World)
    requires Shape(w) && PollShape(w) && Enabled(w, EndPoll)
    ensures Shape(After(w, EndPoll)) && PollShape(After(w, EndPoll))
  {
  }

  lemma ReadKeepsShape(w: World, today: int)
    requires Shape(w) && PollShape(w) && Enabled(w, Step.Read(today))
    ensures Shape(After(w, Step.Read(today))) && PollShape(After(w, Step.Read(today)))
  {
  }

  /** A replaced agent is never sampled again once its successor has been. */
  lemma {:induction false} StepKeepsShape(w: World, s: Step)
    requires Shape(w) && PollShape(w) && Enabled(w, s)
    ensures Shape(After(w, s)) && PollShape(After(w, s))
  {
    hide Shape, PollShape;
    match s
    case Spend(a, n) => SpendKeepsShape(w, a, n);
    case List(k) => ListKeepsShape(w, k);
    case Unlist(k) => UnlistKeepsShape(w, k);
    case BeginPoll => BeginKeepsShape(w);
    case Fetch(_, _) => FetchKeepsShape(w, s);
    case FetchFails(_) => FetchKeepsShape(w, s);
    case RecordSample(_) => RecordKeepsShape(w, s); RecordKeepsPollShape(w, s);
    case EndPoll => EndKeepsShape(w);
    case Read(today) => ReadKeepsShape(w, today);
  }

  lemma TotalsOfAppend(log: seq<Entry>, e: Entry)
    ensures TotalOvertaken(log + [e]) == TotalOvertaken(log) + e.overtaken
    ensures forall d :: DayTotal(log + [e], d) == DayTotal(log, d) + if e.day == d then e.amount else 0
    ensures forall a :: AgentTotal(log + [e], a) == AgentTotal(log, a) + if e.agent == a then e.amount else 0
    ensures forall a :: AgentOvertaken(log + [e], a) == AgentOvertaken(log, a) + if e.agent == a then e.overtaken else 0
  {
    assert (log + [e])[..|log|] == log;
  }

  lemma {:induction false} NothingForStrangers(log: seq<Entry>, a: nat)
    requires forall e <- log :: e.agent != a
    ensures AgentTotal(log, a) == 0 == AgentOvertaken(log, a)
  {
    if 0 < |log| {
      NothingForStrangers(log[..|log| - 1], a);
      assert log[|log| - 1] in log;
    }
  }

  lemma {:induction false} NothingAfterToday(log: seq<Entry>, day: int, today: int)
    requires forall e <- log :: e.day <= today
    requires today < day
    ensures DayTotal(log, day) == 0
  {
    if 0 < |log| {
      NothingAfterToday(log[..|log| - 1], day, today);
      assert log[|log| - 1] in log;
    }
  }

  lemma CloseBooks(l: Ledger, closed: seq<(int, int)>, today: int)
    ensures Booked(Close(l, closed, today)) + Roll(l, today).daily == Booked(closed) + l.daily
  {
    assert (closed + [(l.day, l.daily)])[..|closed|] == closed;
  }

  /** The one entry a sample adds to the log is what it booked plus what it overtook. */
  lemma SampleIsAccountedFor(w: World, today: int)
    requires Shape(w) && PollShape(w) && Enabled(w, RecordSample(today))
    ensures var Sample(a, v) := w.poll.sample.value;
            var t := After(w, RecordSample(today));
            var e := t.log[|w.log|];
            && t.log == w.log + [e] && e.agent == a < |w.seen| && e.day == today
            && 0 <= e.amount && 0 <= e.overtaken
            && e.amount + e.overtaken == v - w.seen[a]
            && t.ledger.daily == Roll(w.ledger, today).daily + e.amount
            && t.seen == w.seen[a := v]
  {
  }

  lemma AccountsBook(seen: seq<int>, log: seq<Entry>, e: Entry, v: int)
    requires Accounts(seen, log) && e.agent < |seen|
    requires 0 <= e.amount && 0 <= e.overtaken && e.amount + e.overtaken == v - seen[e.agent]
    ensures Accounts(seen[e.agent := v], log + [e])
  {
    TotalsOfAppend(log, e);
  }

  lemma AccountsOpen(seen: seq<int>, log: seq<Entry>)
    requires Accounts(seen, log)
    ensures Accounts(seen + [0], log)
  {
    NothingForStrangers(log, |seen|);
  }

  lemma BalanceBooks(l: Ledger, seen: seq<int>, closed: seq<(int, int)>, log: seq<Entry>, e: Entry, v: int)
    requires Balance(seen, closed, l.daily, log) && e.agent < |seen|
    requires e.amount + e.overtaken == v - seen[e.agent]
    ensures Balance(seen[e.agent := v], Close(l, closed, e.day), Roll(l, e.day).daily + e.amount, log + [e])
  {
    TotalsOfAppend(log, e);
    SumUpdate(seen, e.agent, v);
    CloseBooks(l, closed, e.day);
  }

  lemma CalendarRolls(l: Ledger, closed: seq<(int, int)>, log: seq<Entry>, today: int)
    requires Calendar(l.day, l.daily, closed, log) && l.day <= today
    ensures Calendar(today, Roll(l, today).daily, Close(l, closed, today), log)
  {
    if l.day != today {
      NothingAfterToday(log, today, l.day);
    }
  }

  lemma CalendarBooks(day: int, daily: int, closed: seq<(int, int)>, log: seq<Entry>, e: Entry)
    requires Calendar(day, daily, closed, log) && e.day == day
    ensures Calendar(day, daily + e.amount, closed, log + [e])
  {
    TotalsOfAppend(log, e);
  }

  lemma RecordKeepsBooks(w: World, today: int)
    requires Inv(w) && Enabled(w, RecordSample(today))
    ensures var t := After(w, RecordSample(today));
            && Accounts(t.seen, t.log)
            && Balance(t.seen, t.closed, t.ledger.daily, t.log)
            && Calendar(t.ledger.day, t.ledger.daily, t.closed, t.log)
  {
    hide Accounts, Balance, Calendar, Shape, PollShape;
    SampleIsAccountedFor(w, today);
    var v, e := w.poll.sample.value.value, After(w, RecordSample(today)).log[|w.log|];
    AccountsBook(w.seen, w.log, e, v);
    BalanceBooks(w.ledger, w.seen, w.closed, w.log, e, v);
    CalendarRolls(w.ledger, w.closed, w.log, today);
    CalendarBooks(today, Roll(w.ledger, today).daily, Close(w.ledger, w.closed, today), w.log, e);
  }

  lemma {:induction false} StepKeepsBooks(w: World, s: Step)
    requires Inv(w) && Enabled(w, s)
    ensures var t := After(w, s);
            && Accounts(t.seen, t.log)
            && Balance(t.seen, t.closed, t.ledger.daily, t.log)
            && Calendar(t.ledger.day, t.ledger.daily, t.closed, t.log)
  {
    hide Accounts, Calendar, Shape, PollShape, Recorded;
    match s
    case List(_) =>
      AccountsOpen(w.seen, w.log);
      SumAppend(w.seen, 0);
    case RecordSample(today) =>
      RecordKeepsBooks(w, today);
    case Read(today) =>
      CloseBooks(w.ledger, w.closed, today);
      CalendarRolls(w.ledger, w.closed, w.log, today);
    case _ =>
  }

  lemma {:induction false} Invariant(today: int, steps: seq<Step>, trace: seq<World>, i: nat)
    requires IsRun(today, steps, trace) && i < |trace|
    ensures Inv(trace[i])
  {
    if i > 0 {
      Invariant(today, steps, trace, i - 1);
      StepKeepsShape(trace[i - 1], steps[i - 1]);
      StepKeepsBooks(trace[i - 1], steps[i - 1]);
    }
  }

  // ----- Main results -----

  predicate Live(w: World, a: nat) {
    a < |w.home| && Maps(w.listed, w.home[a], a)
  }

  /** Growth since the last recorded sample, over the agents that are listed or over those that no longer are. */
  function Unpolled(w: World, live: bool, n: nat): int
    requires n <= |w.spent| && n <= |w.seen|
  {
    if n == 0 then 0
    else Unpolled(w, live, n - 1) + if Live(w, n - 1) == live then w.spent[n - 1] - w.seen[n - 1] else 0
  }

  lemma {:induction false} SpentIsSeenPlusUnpolled(w: World, n: nat)
    requires n <= |w.spent| && n <= |w.seen|
    ensures Sum(w.spent[..n]) == Sum(w.seen[..n]) + Unpolled(w, true, n) + Unpolled(w, false, n)
  {
    if n > 0 {
      SpentIsSeenPlusUnpolled(w, n - 1);
      assert w.spent[..n][..n - 1] == w.spent[..n - 1] && w.seen[..n][..n - 1] == w.seen[..n - 1];
    }
  }

  lemma {:induction false} UnpolledIsNatural(w: World, live: bool, n: nat)
    requires Shape(w) && n <= |w.spent|
    ensures 0 <= Unpolled(w, live, n)
  {
    if n > 0 {
      UnpolledIsNatural(w, live, n - 1);
    }
  }

  lemma {:induction false} OvertakenIsNatural(log: seq<Entry>)
    requires forall e <- log :: 0 <= e.overtaken
    ensures 0 <= TotalOvertaken(log)
  {
    if 0 < |log| {
      OvertakenIsNatural(log[..|log| - 1]);
      assert log[|log| - 1] in log;
    }
  }

  /** Conservation: at every moment of every run, what all agents ever spent is what the
      ledgers of all days hold, plus what listed agents have not yet been polled for, plus
      what agents took with them when they went, plus what replacements have overtaken.
      Hence the ledgers never exceed the true spend. */
  lemma TokensAreConserved(today: int, steps: seq<Step>, trace: seq<World>, i: nat)
    requires IsRun(today, steps, trace) && i < |trace|
    ensures var w := trace[i];
            && |w.spent| == |w.seen|
            && Sum(w.spent) == Booked(w.closed) + w.ledger.daily
                               + Unpolled(w, true, |w.spent|) + Unpolled(w, false, |w.spent|)
                               + TotalOvertaken(w.log)
            && Booked(w.closed) + w.ledger.daily <= Sum(w.spent)
  {
    Invariant(today, steps, trace, i);
    var w := trace[i];
    var n := |w.spent|;
    SpentIsSeenPlusUnpolled(w, n);
    assert w.spent[..n] == w.spent && w.seen[..n] == w.seen;
    UnpolledIsNatural(w, true, n);
    UnpolledIsNatural(w, false, n);
    OvertakenIsNatural(w.log);
  }

  lemma {:induction false} OvertakenByIsNatural(log: seq<Entry>, a: nat)
    requires forall e <- log :: 0 <= e.overtaken
    ensures 0 <= AgentOvertaken(log, a)
  {
    if 0 < |log| {
      OvertakenByIsNatural(log[..|log| - 1], a);
      assert log[|log| - 1] in log;
    }
  }

  /** No double counting: no agent is ever booked for more than it spent, over all days together. */
  lemma NoAgentIsBookedTwice(today: int, steps: seq<Step>, trace: seq<World>, i: nat, a: nat)
    requires IsRun(today, steps, trace) && i < |trace| && a < |trace[i].spent|
    ensures AgentTotal(trace[i].log, a) <= trace[i].spent[a]
  {
    Invariant(today, steps, trace, i);
    OvertakenByIsNatural(trace[i].log, a);
  }

  /** Day partition: every finished day's total, and today's, is the sum of what was booked on that day. */
  lemma DaysPartitionTheLog(today: int, steps: seq<Step>, trace: seq<World>, i: nat)
    requires IsRun(today, steps, trace) && i < |trace|
    ensures var w := trace[i];
            && w.ledger.daily == DayTotal(w.log, w.ledger.day)
            && (forall j :: 0 <= j < |w.closed| ==> w.closed[j].1 == DayTotal(w.log, w.closed[j].0))
            && (forall j, k :: 0 <= j < k < |w.closed| ==> w.closed[j].0 < w.closed[k].0 < w.ledger.day)
  {
    Invariant(today, steps, trace, i);
  }

  /** Recording a sample books exactly the agent's growth since its own last sample, across
      midnight too, unless it is the first one of a replacement that has caught up with its
      predecessor's last non-zero value. In that case the predecessor's value is lost. */
  lemma SampleIsExactUnlessOvertaking(today: int, steps: seq<Step>, trace: seq<World>, i: nat)
    requires IsRun(today, steps, trace) && i < |steps| && steps[i].RecordSample?
    ensures Shape(trace[i]) && PollShape(trace[i])
    ensures var w, t := trace[i], trace[i + 1];
            var Sample(a, v) := w.poll.sample.value;
            var k := w.home[a];
            var booked := t.ledger.daily - Roll(w.ledger, steps[i].today).daily;
            && (booked == v - w.seen[a] <==>
                  !(k in w.ledger.last && w.owner[k] != a && 0 < w.ledger.last[k] <= v))
            && (booked != v - w.seen[a] ==> booked == v - w.ledger.last[k] && w.seen[a] == 0)
  {
    Invariant(today, steps, trace, i);
  }

  /** When the gate closes: a check on a day finds the budget spent exactly when there is a
      budget and at least as much has been booked on that day. */
  lemma SpentExactly(today: int, steps: seq<Step>, trace: seq<World>, i: nat, budget: int, day: int)
    requires IsRun(today, steps, trace) && i < |trace| && trace[i].ledger.day <= day
    ensures OverBudget(budget, trace[i].ledger, day) <==> 0 < budget && budget <= DayTotal(trace[i].log, day)
  {
    Invariant(today, steps, trace, i);
    var w := trace[i];
    if w.ledger.day < day {
      NothingAfterToday(w.log, day, w.ledger.day);
    }
  }

  // ----- When nothing is overtaken -----

  predicate Newest(home: seq<Key>, a: nat) {
    a < |home| && forall b :: a < b < |home| ==> home[b] != home[a]
  }

  /** A key is given a new agent only after a whole poll has gone by without it. */
  predicate Settled(w: World, s: Step) {
    s.List? ==> s.key !in w.ledger.last && (w.poll.Polling? ==> s.key !in w.poll.targets)
  }

  predicate OnlyNewestSampled(w: World) {
    && (forall k <- w.ledger.last :: k in w.owner && Newest(w.home, w.owner[k]))
    && (forall k <- w.listed :: Newest(w.home, w.listed[k]))
    && (w.poll.Polling? ==>
          && (forall k <- w.poll.targets :: Newest(w.home, w.poll.targets[k]))
          && (w.poll.sample.Some? ==> Newest(w.home, w.poll.sample.value.agent)))
    && TotalOvertaken(w.log) == 0
  }

  lemma NewestOvertakesNothing(w: World, today: int)
    requires Shape(w) && PollShape(w) && OnlyNewestSampled(w) && Enabled(w, RecordSample(today))
    ensures Overtaken(w, w.poll.sample.value.agent, w.poll.sample.value.value) == 0
    ensures Newest(w.home, w.poll.sample.value.agent)
    ensures Recorded(w.ledger, today, w.home[w.poll.sample.value.agent], w.poll.sample.value.value).last
            == w.ledger.last[w.home[w.poll.sample.value.agent] := w.poll.sample.value.value]
  {
  }

  lemma RecordKeepsNewest(w: World, today: int)
    requires Shape(w) && PollShape(w) && OnlyNewestSampled(w) && Enabled(w, RecordSample(today))
    ensures OnlyNewestSampled(After(w, RecordSample(today)))
  {
    hide Shape, PollShape, Overtaken, Recorded;
    NewestOvertakesNothing(w, today);
    TotalsOfAppend(w.log, After(w, RecordSample(today)).log[|w.log|]);
  }

  lemma ListKeepsNewest(w: World, k: Key)
    requires Shape(w) && PollShape(w) && OnlyNewestSampled(w) && Settled(w, List(k))
    ensures OnlyNewestSampled(After(w, List(k)))
  {
  }

  lemma OtherKeepsNewest(w: World, s: Step)
    requires Shape(w) && PollShape(w) && OnlyNewestSampled(w) && Enabled(w, s)
    requires !s.List? && !s.RecordSample?
    ensures OnlyNewestSampled(After(w, s))
  {
    hide Recorded, Overtaken;
  }

  lemma StepKeepsNewest(w: World, s: Step)
    requires Shape(w) && PollShape(w) && OnlyNewestSampled(w) && Enabled(w, s) && Settled(w, s)
    ensures OnlyNewestSampled(After(w, s))
  {
    hide Shape, PollShape, OnlyNewestSampled, After;
    if s.RecordSample? {
      RecordKeepsNewest(w, s.today);
    } else if s.List? {
      ListKeepsNewest(w, s.key);
    } else {
      OtherKeepsNewest(w, s);
    }
  }

  /** If every replaced key has been pruned first, the accounts balance without a lost
      term for replacements: the ledgers fall short of the true spend exactly by what the
      listed agents have not been polled for and what departed agents took with them. */
  lemma {:induction false} SettledReplacementLosesNothing(today: int, steps: seq<Step>, trace: seq<World>, i: nat)
    requires IsRun(today, steps, trace) && i < |trace|
    requires forall j :: 0 <= j < i ==> Settled(trace[j], steps[j])
    ensures OnlyNewestSampled(trace[i]) && |trace[i].spent| == |trace[i].seen|
    ensures var w := trace[i];
            Sum(w.spent) - Booked(w.closed) - w.ledger.daily
            == Unpolled(w, true, |w.spent|) + Unpolled(w, false, |w.spent|)
  {
    if i > 0 {
      SettledReplacementLosesNothing(today, steps, trace, i - 1);
      Invariant(today, steps, trace, i - 1);
      assert Settled(trace[i - 1], steps[i - 1]);
      StepKeepsNewest(trace[i - 1], steps[i - 1]);
    }
    TokensAreConserved(today, steps, trace, i);
  }

  lemma Extend(today: int, steps: seq<Step>, trace: seq<World>, s: Step) returns (more: seq<Step>, longer: seq<World>)
    requires IsRun(today, steps, trace) && Enabled(trace[|steps|], s)
    ensures IsRun(today, more, longer) && |more| == |steps| + 1
    ensures longer[|more|] == After(trace[|steps|], s)
  {
    more, longer := steps + [s], trace + [After(trace[|steps|], s)];
  }

  /** One whole poll in which the only listed agent is fetched and recorded at once. */
  lemma PollOne(today: int, steps: seq<Step>, trace: seq<World>, k: Key, a: nat, v: int)
    returns (more: seq<Step>, longer: seq<World>)
    requires IsRun(today, steps, trace)
    requires var w := trace[|steps|];
             && w.poll == Idle && w.ledger.day == today && w.listed == map[k := a]
             && Serves(w.home, k, a) && a < |w.seen| && a < |w.spent| && w.seen[a] <= v <= w.spent[a]
    ensures IsRun(today, more, longer)
    ensures var w, t := trace[|steps|], longer[|more|];
            && t.poll == Idle && t.listed == w.listed && t.home == w.home && t.spent == w.spent
            && t.seen == w.seen[a := v] && t.closed == w.closed
            && t.ledger == Pruned(Recorded(w.ledger, today, k, v), {k})
  {
    more, longer := Extend(today, steps, trace, BeginPoll);
    more, longer := Extend(today, more, longer, Fetch(a, v));
    more, longer := Extend(today, more, longer, RecordSample(today));
    assert longer[|more|].poll.todo == {};
    more, longer := Extend(today, more, longer, EndPoll);
  }

  /** Such a run: an agent spends 100 and is polled, is replaced under its key, and the
      replacement has spent 150 by the next poll. All 250 were seen; 150 are booked. */
  lemma OvertakingLosesTokens() returns (steps: seq<Step>, trace: seq<World>)
    ensures IsRun(0, steps, trace)
    ensures var w := trace[|steps|];
            Sum(w.seen) == Sum(w.spent) == 250 && Booked(w.closed) + w.ledger.daily == 150
  {
    hide Sum;
    steps, trace := Extend(0, [], [Start(0)], List("s"));
    steps, trace := Extend(0, steps, trace, Spend(0, 100));
    steps, trace := PollOne(0, steps, trace, "s", 0, 100);
    steps, trace := Extend(0, steps, trace, List("s"));
    steps, trace := Extend(0, steps, trace, Spend(1, 150));
    steps, trace := PollOne(0, steps, trace, "s", 1, 150);
    SumOfTwo(trace[|steps|].seen);
    SumOfTwo(trace[|steps|].spent);
  }

  lemma SumOfTwo(s: seq<int>)
    requires |s| == 2
    ensures Sum(s) == s[0] + s[1]
  {
    assert s[..1] == [s[0]];
    assert Sum([s[0]]) == Sum([s[0]][..0]) + s[0];
  }
}
