/** The sampling loop of internal/broker/usage.go that feeds the ledger.

    A poll visits the targets in the arbitrary order of Go's map iteration; each
    visit ends in a failed fetch or in the agent's two counters. The fetch looks
    at no HTTP status, so a reply that decodes is taken to be the agent's own. */
module UsagePoller {
  import opened BudgetLedger
  import opened Sums

  datatype Reply = Failed | Counters(input: int, output: int)

  datatype Visit = Visit(key: Key, reply: Reply, today: int)

  function Listed(visits: seq<Visit>): set<Key> {
    set v <- visits :: v.key
  }

  function AfterVisit(s: Ledger, v: Visit): Ledger {
    match v.reply
    case Failed => s
    case Counters(input, output) => Recorded(s, v.today, v.key, input + output)
  }

  function AfterVisits(s: Ledger, visits: seq<Visit>): Ledger {
    if |visits| == 0 then s
    else AfterVisit(AfterVisits(s, visits[..|visits| - 1]), visits[|visits| - 1])
  }

  function AfterPoll(s: Ledger, visits: seq<Visit>): Ledger {
    Pruned(AfterVisits(s, visits), Listed(visits))
  }

  function AfterPolls(s: Ledger, polls: seq<seq<Visit>>): Ledger {
    if |polls| == 0 then s
    else AfterPoll(AfterPolls(s, polls[..|polls| - 1]), polls[|polls| - 1])
  }

  class Poller {
    const tracker: BudgetTracker

    constructor (tracker: BudgetTracker)
      ensures this.tracker == tracker
    {
      this.tracker := tracker;
    }

    method PollOnce(visits: seq<Visit>)
      modifies tracker
      ensures tracker.Value() == AfterPoll(old(tracker.Value()), visits)
    {
      var active: set<Key> := {};
      for i := 0 to |visits|
        invariant active == Listed(visits[..i])
        invariant tracker.Value() == AfterVisits(old(tracker.Value()), visits[..i])
      {
        assert visits[..i + 1] == visits[..i] + [visits[i]];
        active := active + {visits[i].key};
        if visits[i].reply.Counters? {
          tracker.Record(visits[i].today, visits[i].key, visits[i].reply.input + visits[i].reply.output);
        }
      }
      assert visits[..|visits|] == visits;
      tracker.Prune(active);
    }
  }

  // ----- Failed fetches -----

  /** All visits on the ledger's day, and no sample below the one before it for the same key. */
  predicate Steady(s: Ledger, visits: seq<Visit>) {
    forall i :: 0 <= i < |visits| ==> SteadyAt(s, visits, i)
  }

  predicate SteadyAt(s: Ledger, visits: seq<Visit>, i: nat)
    requires i < |visits|
  {
    var seen := AfterVisits(s, visits[..i]).last;
    && visits[i].today == s.day
    && (visits[i].reply.Counters? && visits[i].key in seen ==>
          seen[visits[i].key] <= visits[i].reply.input + visits[i].reply.output)
  }

  /** The same visits, with any of the fetches failing. */
  predicate SomeFail(p: seq<Visit>, q: seq<Visit>) {
    && |p| == |q|
    && forall i :: 0 <= i < |p| ==> q[i] == p[i] || q[i] == p[i].(reply := Failed)
  }

  lemma SteadyPrefix(s: Ledger, visits: seq<Visit>, n: nat)
    requires n <= |visits| && Steady(s, visits)
    ensures Steady(s, visits[..n])
  {
    forall i: nat | i < n ensures SteadyAt(s, visits[..n], i) {
      assert SteadyAt(s, visits, i) && visits[..n][..i] == visits[..i];
    }
  }

  /** What has been counted and what has been seen grow together. */
  lemma {:induction false} CountedMinusSeen(s: Ledger, visits: seq<Visit>)
    requires Steady(s, visits)
    ensures AfterVisits(s, visits).day == s.day
    ensures AfterVisits(s, visits).daily - MapSum(AfterVisits(s, visits).last) == s.daily - MapSum(s.last)
  {
    if 0 < |visits| {
      var n := |visits| - 1;
      SteadyPrefix(s, visits, n);
      CountedMinusSeen(s, visits[..n]);
      assert SteadyAt(s, visits, n);
      if visits[n].reply.Counters? {
        MapSumUpdate(AfterVisits(s, visits[..n]).last, visits[n].key, visits[n].reply.input + visits[n].reply.output);
      }
    }
  }

  predicate Behind(q: map<Key, int>, p: map<Key, int>) {
    forall k <- q :: k in p && q[k] <= p[k]
  }

  /** Also from a ledger that is itself behind on what it has seen. */
  lemma {:induction false} FailuresLeaveSteady(s: Ledger, t: Ledger, p: seq<Visit>, q: seq<Visit>)
    requires Steady(s, p) && SomeFail(p, q)
    requires t.day == s.day && Behind(t.last, s.last)
    ensures Steady(t, q)
    ensures Behind(AfterVisits(t, q).last, AfterVisits(s, p).last)
    decreases |p|
  {
    if 0 < |p| {
      var n := |p| - 1;
      SteadyPrefix(s, p, n);
      FailuresLeaveSteady(s, t, p[..n], q[..n]);
      CountedMinusSeen(s, p[..n]);
      CountedMinusSeen(t, q[..n]);
      assert SteadyAt(s, p, n);
      forall i: nat | i < |q| ensures SteadyAt(t, q, i) {
        if i < n {
          assert SteadyAt(t, q[..n], i) && q[..n][..i] == q[..i];
        }
      }
    }
  }

  // ----- Listings that change from poll to poll -----

  /** The last samples that the prunes of a run of polls drop, summed up. */
  ghost function Dropped(s: Ledger, polls: seq<seq<Visit>>): int {
    if |polls| == 0 then 0
    else
      var n := |polls| - 1;
      Dropped(s, polls[..n]) + MapSum(AfterVisits(AfterPolls(s, polls[..n]), polls[n]).last - Listed(polls[n]))
  }

  /** Each poll is steady from where the polls before it lead. */
  predicate SteadyPolls(s: Ledger, polls: seq<seq<Visit>>) {
    forall i :: 0 <= i < |polls| ==> SteadyPollAt(s, polls, i)
  }

  predicate SteadyPollAt(s: Ledger, polls: seq<seq<Visit>>, i: nat)
    requires i < |polls|
  {
    Steady(AfterPolls(s, polls[..i]), polls[i])
  }

  /** The same polls of the same targets, with any of the fetches failing. */
  predicate SomeFailEach(p: seq<seq<Visit>>, q: seq<seq<Visit>>) {
    |p| == |q| && forall i :: 0 <= i < |p| ==> SomeFail(p[i], q[i])
  }

  lemma SteadyPollsPrefix(s: Ledger, polls: seq<seq<Visit>>, n: nat)
    requires n <= |polls| && SteadyPolls(s, polls)
    ensures SteadyPolls(s, polls[..n])
  {
    forall i: nat | i < n ensures SteadyPollAt(s, polls[..n], i) {
      assert SteadyPollAt(s, polls, i) && polls[..n][..i] == polls[..i];
    }
  }

  lemma SteadyPollsGrow(s: Ledger, polls: seq<seq<Visit>>, n: nat)
    requires n + 1 == |polls| && SteadyPolls(s, polls[..n]) && Steady(AfterPolls(s, polls[..n]), polls[n])
    ensures SteadyPolls(s, polls)
  {
    forall i: nat | i <= n ensures SteadyPollAt(s, polls, i) {
      if i < n {
        assert SteadyPollAt(s, polls[..n], i) && polls[..n][..i] == polls[..i];
      }
    }
  }

  lemma SomeFailListsTheSame(p: seq<Visit>, q: seq<Visit>)
    requires SomeFail(p, q)
    ensures Listed(p) == Listed(q)
  {
    forall v <- p ensures v.key in Listed(q) {
      var i :| 0 <= i < |p| && p[i] == v;
      assert q[i].key == v.key && q[i] in q;
    }
    forall v <- q ensures v.key in Listed(p) {
      var i :| 0 <= i < |q| && q[i] == v;
      assert p[i].key == v.key && p[i] in p;
    }
  }

  /** One poll: what is counted minus what is seen changes only by what the prune drops. */
  lemma PollBalances(s: Ledger, visits: seq<Visit>)
    requires Steady(s, visits)
    ensures var (t, mid) := (AfterPoll(s, visits), AfterVisits(s, visits).last);
            t.day == s.day && t.daily - MapSum(t.last) == s.daily - MapSum(s.last) + MapSum(mid - Listed(visits))
  {
    hide Steady, AfterVisits, Listed;
    var mid, active := AfterVisits(s, visits).last, Listed(visits);
    CountedMinusSeen(s, visits);
    MapSumSplit(mid, active);
    assert mid - (mid.Keys - active) == Pruned(AfterVisits(s, visits), active).last;
  }

  /** Failed fetches are harmless: whatever sessions open and close from poll to poll, and
      whatever subset of the fetches fails, the totals differ by exactly the growth that is
      still to be seen, now or when the key was dropped. */
  lemma {:induction false} FailedFetchesOnlyDefer(s: Ledger, p: seq<seq<Visit>>, q: seq<seq<Visit>>)
    requires SteadyPolls(s, p) && SomeFailEach(p, q)
    ensures var (a, b) := (AfterPolls(s, p), AfterPolls(s, q));
            && a.day == b.day == s.day && Behind(b.last, a.last)
            && a.daily - b.daily == (MapSum(a.last) - MapSum(b.last)) + (Dropped(s, p) - Dropped(s, q))
    ensures SteadyPolls(s, q)
    decreases |p|
  {
    if 0 < |p| {
      var n := |p| - 1;
      SteadyPollsPrefix(s, p, n);
      FailedFetchesOnlyDefer(s, p[..n], q[..n]);
      var a, b := AfterPolls(s, p[..n]), AfterPolls(s, q[..n]);
      assert SteadyPollAt(s, p, n) && SomeFail(p[n], q[n]);
      hide Steady, AfterVisits, Listed, SteadyPolls;
      FailuresLeaveSteady(a, b, p[n], q[n]);
      SomeFailListsTheSame(p[n], q[n]);
      PollBalances(a, p[n]);
      PollBalances(b, q[n]);
      SteadyPollsGrow(s, q, n);
    }
  }

  /** Why: a poll keeps the last sample of every key it lists, whether or not the fetch
      succeeds, and forgets every other key. */
  lemma {:induction false} FailedKeysKeepTheirSample(s: Ledger, visits: seq<Visit>, key: Key)
    requires forall v <- visits :: v.key == key ==> v.reply.Failed?
    ensures var after := AfterPoll(s, visits).last;
            && (key in after <==> key in Listed(visits) && key in s.last)
            && (key in after ==> after[key] == s.last[key])
  {
    VisitsLeaveFailed(s, visits, key);
  }

  lemma {:induction false} VisitsLeaveFailed(s: Ledger, visits: seq<Visit>, key: Key)
    requires forall v <- visits :: v.key == key ==> v.reply.Failed?
    ensures var after := AfterVisits(s, visits).last;
            && (key in after <==> key in s.last) && (key in after ==> after[key] == s.last[key])
  {
    if 0 < |visits| {
      VisitsLeaveFailed(s, visits[..|visits| - 1], key);
      assert visits[|visits| - 1] in visits;
    }
  }

  lemma {:induction false} OnlyListedKeys(s: Ledger, visits: seq<Visit>)
    ensures AfterVisits(s, visits).last.Keys <= s.last.Keys + Listed(visits)
  {
    if 0 < |visits| {
      OnlyListedKeys(s, visits[..|visits| - 1]);
      assert visits[|visits| - 1] in visits;
    }
  }

  /** A key that has been sampled is listed by every later poll: sessions open, none closes. */
  predicate NoneCloses(s: Ledger, polls: seq<seq<Visit>>) {
    forall i :: 0 <= i < |polls| ==> NoneClosesAt(s, polls, i)
  }

  predicate NoneClosesAt(s: Ledger, polls: seq<seq<Visit>>, i: nat)
    requires i < |polls|
  {
    AfterPolls(s, polls[..i]).last.Keys <= Listed(polls[i])
  }

  lemma {:induction false} NothingIsDropped(s: Ledger, polls: seq<seq<Visit>>)
    requires NoneCloses(s, polls)
    ensures Dropped(s, polls) == 0
  {
    if 0 < |polls| {
      var n := |polls| - 1;
      forall i: nat | i < n ensures NoneClosesAt(s, polls[..n], i) {
        assert NoneClosesAt(s, polls, i) && polls[..n][..i] == polls[..i];
      }
      NothingIsDropped(s, polls[..n]);
      assert NoneClosesAt(s, polls, n);
      OnlyListedKeys(AfterPolls(s, polls[..n]), polls[n]);
      assert AfterVisits(AfterPolls(s, polls[..n]), polls[n]).last - Listed(polls[n]) == map[];
    }
  }

  lemma SomeFailEachPrefix(s: Ledger, p: seq<seq<Visit>>, q: seq<seq<Visit>>, i: nat)
    requires SteadyPolls(s, p) && SomeFailEach(p, q) && i <= |p|
    ensures Behind(AfterPolls(s, q[..i]).last, AfterPolls(s, p[..i]).last)
  {
    SteadyPollsPrefix(s, p, i);
    FailedFetchesOnlyDefer(s, p[..i], q[..i]);
  }

  /** So while no session closes, failed fetches lose nothing: the totals differ by the growth
      still to be seen, and once the last samples agree again, so do the whole ledgers. */
  lemma {:induction false} FailuresLoseNothing(s: Ledger, p: seq<seq<Visit>>, q: seq<seq<Visit>>)
    requires SteadyPolls(s, p) && SomeFailEach(p, q) && NoneCloses(s, p)
    ensures var a, b := AfterPolls(s, p), AfterPolls(s, q);
            && a.daily - b.daily == MapSum(a.last) - MapSum(b.last)
            && (a.last == b.last ==> a == b)
  {
    forall i: nat | i < |q| ensures NoneClosesAt(s, q, i) {
      assert NoneClosesAt(s, p, i) && SomeFail(p[i], q[i]);
      SomeFailEachPrefix(s, p, q, i);
      SomeFailListsTheSame(p[i], q[i]);
    }
    NothingIsDropped(s, p);
    NothingIsDropped(s, q);
    FailedFetchesOnlyDefer(s, p, q);
  }

  /** A failed fetch can hide that an agent was replaced. The later sample still
      counts in full unless the replacement has by then reached the old value. */
  lemma HiddenReplacement(s: Ledger, key: Key, first: int, second: int)
    requires key in s.last && 0 <= first <= second
    requires first < s.last[key]
    ensures Recorded(s, s.day, key, second) == Recorded(Recorded(s, s.day, key, first), s.day, key, second)
       <==> second < s.last[key]
  {
    assert s.last[key := first][key := second] == s.last[key := second];
  }
}
