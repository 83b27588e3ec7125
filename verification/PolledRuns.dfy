/** A poll of internal/broker/usage.go is a run of TokenConservation: what `PollOnce` does to the
    ledger is what the steps of that system do, so all its results hold of polls, on any days. */
module PolledRuns {
  import opened BudgetLedger
  import opened Sums
  import opened UsagePoller
  import opened Wrappers
  import T = TokenConservation

  /** `ws` are the worlds that `steps` lead through from `w`. */
  predicate Path(w: T.World, steps: seq<T.Step>, ws: seq<T.World>) {
    && |ws| == |steps| + 1 && ws[0] == w
    && forall i :: 0 <= i < |steps| ==> T.Enabled(ws[i], steps[i]) && ws[i + 1] == T.After(ws[i], steps[i])
  }

  /** What a poll of the listed agents can meet: each is visited once, on days that do not go
      back, and answers with a count that it had between its last sample and now. */
  predicate Visits(w: T.World, visits: seq<Visit>) {
    && Listed(visits) == w.listed.Keys
    && (forall i, j :: 0 <= i < j < |visits| ==> visits[i].key != visits[j].key)
    && (forall i :: 0 <= i < |visits| ==> w.ledger.day <= visits[i].today)
    && (forall i, j :: 0 <= i < j < |visits| ==> visits[i].today <= visits[j].today)
    && (forall i :: 0 <= i < |visits| ==> Answers(w, visits[i]))
  }

  predicate Answers(w: T.World, v: Visit) {
    v.reply.Counters? ==>
      && v.key in w.listed && w.listed[v.key] < |w.seen| && w.listed[v.key] < |w.spent|
      && w.seen[w.listed[v.key]] <= v.reply.input + v.reply.output <= w.spent[w.listed[v.key]]
  }

  /** The steps of a visit. */
  function StepsOf(w: T.World, v: Visit): seq<T.Step>
    requires v.key in w.listed
  {
    match v.reply
    case Failed => [T.FetchFails(v.key)]
    case Counters(input, output) => [T.Fetch(w.listed[v.key], input + output), T.RecordSample(v.today)]
  }

  /** In the middle of the poll, after the first `n` visits. */
  predicate Midway(w: T.World, visits: seq<Visit>, n: nat, u: T.World) {
    && n <= |visits|
    && u.ledger == AfterVisits(w.ledger, visits[..n])
    && u.home == w.home && u.spent == w.spent && |u.seen| == |w.seen|
    && u.poll == T.Polling(w.listed, w.listed.Keys - Listed(visits[..n]), None)
    && (forall i :: n <= i < |visits| ==> Untouched(w, visits[i], u))
    && (forall i :: n <= i < |visits| ==> u.ledger.day <= visits[i].today)
  }

  predicate Untouched(w: T.World, v: Visit, u: T.World) {
    v.key in w.listed && w.listed[v.key] < |w.seen| == |u.seen| ==>
      u.seen[w.listed[v.key]] == w.seen[w.listed[v.key]]
  }

  lemma Extend(w: T.World, steps: seq<T.Step>, ws: seq<T.World>, s: T.Step)
    returns (more: seq<T.Step>, longer: seq<T.World>)
    requires Path(w, steps, ws) && T.Enabled(ws[|steps|], s)
    ensures more == steps + [s] && Path(w, more, longer)
    ensures longer[|more|] == T.After(ws[|steps|], s)
  {
    more, longer := steps + [s], ws + [T.After(ws[|steps|], s)];
  }

  lemma BeginVisits(w: T.World, visits: seq<Visit>)
    requires w.poll.Idle? && Visits(w, visits)
    ensures T.Enabled(w, T.BeginPoll) && Midway(w, visits, 0, T.After(w, T.BeginPoll))
  {
  }

  lemma ListedGrows(visits: seq<Visit>, n: nat)
    requires n < |visits|
    ensures Listed(visits[..n + 1]) == Listed(visits[..n]) + {visits[n].key}
    ensures visits[n].key in Listed(visits)
  {
    assert visits[..n + 1] == visits[..n] + [visits[n]];
  }

  lemma NotYetVisited(visits: seq<Visit>, n: nat)
    requires n < |visits|
    requires forall i, j :: 0 <= i < j < |visits| ==> visits[i].key != visits[j].key
    ensures visits[n].key !in Listed(visits[..n])
  {
  }

  lemma VisitsStep(s: Ledger, visits: seq<Visit>, n: nat)
    requires n < |visits|
    ensures AfterVisits(s, visits[..n + 1]) == AfterVisit(AfterVisits(s, visits[..n]), visits[n])
  {
    assert visits[..n + 1][..n] == visits[..n];
  }

  lemma FailedVisit(w: T.World, visits: seq<Visit>, n: nat, u: T.World)
    requires Visits(w, visits) && n < |visits| && Midway(w, visits, n, u) && visits[n].reply.Failed?
    ensures T.Enabled(u, T.FetchFails(visits[n].key))
    ensures Midway(w, visits, n + 1, T.After(u, T.FetchFails(visits[n].key)))
  {
    hide AfterVisits, Listed;
    ListedGrows(visits, n);
    NotYetVisited(visits, n);
    VisitsStep(w.ledger, visits, n);
  }

  lemma CountedVisit(w: T.World, visits: seq<Visit>, n: nat, u: T.World)
    requires T.Shape(w) && Visits(w, visits) && n < |visits| && Midway(w, visits, n, u)
    requires visits[n].reply.Counters?
    ensures visits[n].key in w.listed
    ensures var v := visits[n];
            var fetch := T.Fetch(w.listed[v.key], v.reply.input + v.reply.output);
            && T.Enabled(u, fetch) && T.Enabled(T.After(u, fetch), T.RecordSample(v.today))
            && Midway(w, visits, n + 1, T.After(T.After(u, fetch), T.RecordSample(v.today)))
  {
    hide AfterVisits, Listed, Recorded;
    ListedGrows(visits, n);
    NotYetVisited(visits, n);
    VisitsStep(w.ledger, visits, n);
    var v := visits[n];
    assert Answers(w, v) && Untouched(w, v, u);
    RecordedDay(u.ledger, v.today, v.key, v.reply.input + v.reply.output);
    forall i | n <= i < |visits| ensures visits[i].key in w.listed {
      ListedGrows(visits, i);
    }
  }

  lemma RecordedDay(s: Ledger, today: int, key: Key, cumulative: int)
    ensures Recorded(s, today, key, cumulative).day == today
  {
  }

  function AllSteps(w: T.World, visits: seq<Visit>, n: nat): seq<T.Step>
    requires n <= |visits| && Listed(visits) == w.listed.Keys
  {
    if n == 0 then [T.BeginPoll]
    else
      ListedGrows(visits, n - 1);
      AllSteps(w, visits, n - 1) + StepsOf(w, visits[n - 1])
  }

  lemma {:induction false} VisitsAreSteps(w: T.World, visits: seq<Visit>, n: nat)
    returns (steps: seq<T.Step>, ws: seq<T.World>)
    requires T.Shape(w) && w.poll.Idle? && Visits(w, visits) && n <= |visits|
    ensures steps == AllSteps(w, visits, n) && Path(w, steps, ws) && Midway(w, visits, n, ws[|steps|])
  {
    hide Midway, Visits, T.Shape, T.Enabled, T.After;
    if n == 0 {
      BeginVisits(w, visits);
      steps, ws := Extend(w, [], [w], T.BeginPoll);
    } else {
      steps, ws := VisitsAreSteps(w, visits, n - 1);
      var v, u := visits[n - 1], ws[|steps|];
      ListedGrows(visits, n - 1);
      if v.reply.Failed? {
        FailedVisit(w, visits, n - 1, u);
        steps, ws := Extend(w, steps, ws, T.FetchFails(v.key));
      } else {
        CountedVisit(w, visits, n - 1, u);
        ghost var before := steps;
        steps, ws := Extend(w, steps, ws, T.Fetch(w.listed[v.key], v.reply.input + v.reply.output));
        steps, ws := Extend(w, steps, ws, T.RecordSample(v.today));
        assert steps == before + StepsOf(w, v);
      }
    }
  }

  /** A poll, step by step: begin, fetch and record each listed agent's input and output
      together on the day of its visit, or fail, and end. It leaves the ledger as PollOnce
      does, midnights between its visits included. */
  lemma PollIsARun(w: T.World, visits: seq<Visit>) returns (steps: seq<T.Step>, ws: seq<T.World>)
    requires T.Shape(w) && w.poll.Idle? && Visits(w, visits)
    ensures steps == AllSteps(w, visits, |visits|) + [T.EndPoll] && Path(w, steps, ws)
    ensures var t := ws[|steps|];
            t.ledger == AfterPoll(w.ledger, visits) && t.poll.Idle? && t.spent == w.spent && t.home == w.home
  {
    hide AfterVisits;
    steps, ws := VisitsAreSteps(w, visits, |visits|);
    assert visits[..|visits|] == visits;
    steps, ws := Extend(w, steps, ws, T.EndPoll);
  }

  lemma JoinRuns(
    today: int, steps: seq<T.Step>, trace: seq<T.World>, more: seq<T.Step>, ws: seq<T.World>)
    requires T.IsRun(today, steps, trace) && Path(trace[|steps|], more, ws)
    ensures T.IsRun(today, steps + more, trace + ws[1..])
  {
    hide T.Enabled, T.After;
    var all, worlds := steps + more, trace + ws[1..];
    forall i | 0 <= i < |all| ensures T.Enabled(worlds[i], all[i]) && worlds[i + 1] == T.After(worlds[i], all[i]) {
      if |steps| <= i {
        assert worlds[i] == ws[i - |steps|] && worlds[i + 1] == ws[i - |steps| + 1];
      }
    }
  }

  /** So after a poll in any reachable world, the ledgers, the last of them being what
      PollOnce leaves, balance with the true spend. */
  lemma PolledTokensAreConserved(today: int, steps: seq<T.Step>, trace: seq<T.World>, visits: seq<Visit>)
    returns (t: T.World)
    requires T.IsRun(today, steps, trace)
    requires trace[|steps|].poll.Idle? && Visits(trace[|steps|], visits)
    ensures t.ledger == AfterPoll(trace[|steps|].ledger, visits) && t.spent == trace[|steps|].spent
    ensures |t.spent| == |t.seen|
    ensures Sum(t.spent) == T.Booked(t.closed) + t.ledger.daily
              + T.Unpolled(t, true, |t.spent|) + T.Unpolled(t, false, |t.spent|) + T.TotalOvertaken(t.log)
  {
    hide AfterPoll, Visits, T.Enabled, T.After, T.Shape, T.PollShape, Sum;
    T.Invariant(today, steps, trace, |steps|);
    var more, ws := PollIsARun(trace[|steps|], visits);
    JoinRuns(today, steps, trace, more, ws);
    t := ws[|more|];
    T.TokensAreConserved(today, steps + more, trace + ws[1..], |steps| + |more|);
  }

  /** A poll whose first visit is after midnight: the old day is closed and the sample is
      booked on the new day. */
  lemma PollAfterMidnight(daily: int, last: map<Key, int>, key: Key, input: int, output: int, day: int, today: int)
    requires day < today && key !in last
    ensures AfterPoll(Ledger(day, daily, last), [Visit(key, Counters(input, output), today)])
            == Ledger(today, input + output, map[key := input + output])
  {
    var visits := [Visit(key, Counters(input, output), today)];
    var s := Ledger(day, daily, last);
    assert AfterVisits(s, visits[..0]) == s;
    assert AfterVisits(s, visits) == Ledger(today, input + output, last[key := input + output]);
    assert Listed(visits) == {key};
  }
}
