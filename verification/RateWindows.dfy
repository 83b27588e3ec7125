/** What the limiter admits over whole runs, stated on the log of admitted requests.

    A run interleaves requests for any keys with reaps, under a clock that never goes
    back. Per key, the history of a run is the sequence of its admissions and of the
    reaps that dropped its bucket. */
module RateWindows {
  import opened RateLimit

  datatype Event = Request(key: string, now: int) | Reap(now: int)

  datatype Mark = Admit(at: int) | Wipe

  predicate Ordered(events: seq<Event>) {
    forall i, j :: 0 <= i < j < |events| ==> events[i].now <= events[j].now
  }

  function Step(c: Config, m: Levels, e: Event): Levels {
    match e
    case Request(key, now) => Allowed(c, m, key, now)
    case Reap(now) => Reaped(c, m, now)
  }

  /** The buckets after the first `n` events of a run. */
  function After(c: Config, events: seq<Event>, n: nat): Levels
    requires n <= |events|
  {
    if n == 0 then map[] else Step(c, After(c, events, n - 1), events[n - 1])
  }

  /** The answer given to request `i` of a run. */
  predicate Answer(c: Config, events: seq<Event>, i: nat)
    requires i < |events| && events[i].Request?
  {
    Admits(c, After(c, events, i), events[i].key, events[i].now)
  }

  /** What the first `n` events of a run leave in the history of a key. */
  function History(c: Config, events: seq<Event>, n: nat, key: string): seq<Mark>
    requires n <= |events|
  {
    if n == 0 then []
    else
      var h, before, e := History(c, events, n - 1, key), After(c, events, n - 1), events[n - 1];
      match e
      case Request(k, now) => if k == key && Admits(c, before, k, now) then h + [Admit(now)] else h
      case Reap(now) => if key in before && key !in Reaped(c, before, now) then h + [Wipe] else h
  }

  function Admissions(h: seq<Mark>): nat {
    if |h| == 0 then 0 else (if h[0].Admit? then 1 else 0) + Admissions(h[1..])
  }

  function Wipes(h: seq<Mark>): nat {
    if |h| == 0 then 0 else (if h[0].Wipe? then 1 else 0) + Wipes(h[1..])
  }

  /** The part of the refill time that the conversion to whole seconds drops. */
  function Slack(c: Config): real
    requires c.rate > 0.0
  {
    FullAfter(c) - Truncate(FullAfter(c)) as real
  }

  /** The most a window may admit that lasts `elapsed` and in which the key's bucket was dropped `wipes` times. */
  function Limit(c: Config, elapsed: int, wipes: nat): real
    requires c.rate > 0.0
  {
    c.burst as real + c.rate * (Seconds(elapsed) + Slack(c) * wipes as real)
  }

  /** One more admission at `now` keeps every window that ends there within its limit. */
  predicate Fits(c: Config, h: seq<Mark>, now: int)
    requires c.rate > 0.0
  {
    forall i :: 0 <= i < |h| && h[i].Admit? ==> WindowFits(c, h[i..], h[i].at, now)
  }

  predicate WindowFits(c: Config, window: seq<Mark>, start: int, now: int)
    requires c.rate > 0.0
  {
    Admissions(window) as real + 1.0 <= Limit(c, now - start, Wipes(window))
  }

  // ----- The bucket holds the least headroom of all windows -----

  /** The least room left over the windows of `h` that end at `now`, and the empty window. */
  function Headroom(c: Config, h: seq<Mark>, now: int): real
    requires c.rate > 0.0
  {
    if |h| == 0 then c.burst as real
    else if h[0].Wipe? then Headroom(c, h[1..], now)
    else Min(Limit(c, now - h[0].at, Wipes(h)) - Admissions(h) as real, Headroom(c, h[1..], now))
  }

  lemma {:induction false} HeadroomFits(c: Config, h: seq<Mark>, now: int)
    requires c.rate > 0.0
    ensures 1.0 <= Headroom(c, h, now) <==> 1 <= c.burst && Fits(c, h, now)
  {
    if 0 < |h| {
      HeadroomFits(c, h[1..], now);
      assert forall i :: 1 <= i < |h| ==> h[1..][i - 1] == h[i] && h[1..][i - 1..] == h[i..];
      assert h[0..] == h;
      if Fits(c, h[1..], now) && (h[0].Admit? ==> WindowFits(c, h, h[0].at, now)) {
        forall i | 0 <= i < |h| && h[i].Admit? ensures WindowFits(c, h[i..], h[i].at, now) {
          if i > 0 {
            assert h[1..][i - 1].Admit?;
          }
        }
      }
      if Fits(c, h, now) {
        forall i | 0 <= i < |h[1..]| && h[1..][i].Admit? ensures WindowFits(c, h[1..][i..], h[1..][i].at, now) {
          assert h[i + 1].Admit? && h[1..][i..] == h[i + 1..];
        }
      }
    }
  }

  lemma {:induction false} HeadroomShifts(c: Config, h: seq<Mark>, t: int, u: int)
    requires c.rate > 0.0 && t <= u
    ensures Headroom(c, h, u) == Min(c.burst as real, Headroom(c, h, t) + c.rate * Seconds(u - t))
  {
    ElapsedAdds(c, u, t, 0);
    if 0 < |h| {
      HeadroomShifts(c, h[1..], t, u);
      if h[0].Admit? {
        LimitShifts(c, h[0].at, t, u, Wipes(h));
      }
    }
  }

  lemma ElapsedAdds(c: Config, u: int, t: int, s: int)
    requires c.rate > 0.0
    ensures Seconds(u - s) == Seconds(u - t) + Seconds(t - s)
    ensures t <= u ==> 0.0 <= c.rate * Seconds(u - t)
  {
  }

  lemma LimitShifts(c: Config, s: int, t: int, u: int, wipes: nat)
    requires c.rate > 0.0
    ensures Limit(c, u - s, wipes) == Limit(c, t - s, wipes) + c.rate * Seconds(u - t)
  {
    ElapsedAdds(c, u, t, s);
  }

  lemma CountsAppend(h: seq<Mark>, x: Mark)
    ensures Admissions(h + [x]) == Admissions(h) + if x.Admit? then 1 else 0
    ensures Wipes(h + [x]) == Wipes(h) + if x.Wipe? then 1 else 0
  {
    if 0 < |h| {
      CountsAppend(h[1..], x);
      assert (h + [x])[1..] == h[1..] + [x];
    }
  }

  lemma {:induction false} HeadroomAdmits(c: Config, h: seq<Mark>, now: int)
    requires c.rate > 0.0
    ensures Headroom(c, h + [Admit(now)], now) == Headroom(c, h, now) - 1.0
  {
    CountsAppend(h, Admit(now));
    if 0 < |h| {
      HeadroomAdmits(c, h[1..], now);
      assert (h + [Admit(now)])[1..] == h[1..] + [Admit(now)];
    }
  }

  lemma {:induction false} HeadroomWipes(c: Config, h: seq<Mark>, now: int)
    requires c.rate > 0.0 && 0.0 <= Slack(c)
    ensures Headroom(c, h + [Wipe], now) == Min(c.burst as real, Headroom(c, h, now) + c.rate * Slack(c))
  {
    CountsAppend(h, Wipe);
    assert 0.0 <= c.rate * Slack(c);
    if 0 < |h| {
      HeadroomWipes(c, h[1..], now);
      assert (h + [Wipe])[1..] == h[1..] + [Wipe];
      if h[0].Admit? {
        LimitWipes(c, now - h[0].at, Wipes(h));
      }
    }
  }

  lemma LimitWipes(c: Config, elapsed: int, wipes: nat)
    requires c.rate > 0.0
    ensures Limit(c, elapsed, wipes + 1) == Limit(c, elapsed, wipes) + c.rate * Slack(c)
  {
  }

  /** The tokens a request of the key would find at `now`. */
  function Available(c: Config, m: Levels, key: string, now: int): real {
    if key in m then Refilled(c, m[key], now) else c.burst as real
  }

  /** The first `n` events of a run in order have happened by `now`. */
  predicate Before(events: seq<Event>, n: nat, now: int) {
    n <= |events| && Ordered(events) && (0 < n ==> events[n - 1].now <= now)
  }

  predicate Reapless(events: seq<Event>, n: nat)
    requires n <= |events|
  {
    forall i :: 0 <= i < n ==> events[i].Request?
  }

  lemma SlackIsAFraction(c: Config)
    requires c.rate > 0.0 && 1 <= c.burst
    ensures 0.0 <= Slack(c) < 1.0
    ensures c.burst as real == c.rate * (Truncate(FullAfter(c)) as real + Slack(c))
  {
    assert 0.0 <= FullAfter(c);
  }

  /** Dropping a bucket mints less than one second's refill. */
  lemma WipeMintsSlack(c: Config, b: Level, now: int)
    requires c.rate > 0.0 && 1 <= c.burst && 0.0 <= b.tokens
    requires Stale(c, b, now)
    ensures c.burst as real <= Refilled(c, b, now) + c.rate * Slack(c)
  {
    SlackIsAFraction(c);
    var whole := Truncate(FullAfter(c));
    assert whole as real <= Seconds(now - b.last);
    assert c.rate * whole as real <= Seconds(now - b.last) * c.rate;
    assert c.burst as real == c.rate * whole as real + c.rate * Slack(c);
    assert 0.0 <= c.rate * Slack(c);
  }

  predicate Sane(c: Config, m: Levels, key: string, now: int) {
    key in m ==> m[key].last <= now && (1 <= c.burst ==> 0.0 <= m[key].tokens)
  }

  lemma StepIsSane(c: Config, m: Levels, e: Event, key: string)
    requires c.rate > 0.0 && Sane(c, m, key, e.now)
    ensures Sane(c, Step(c, m, e), key, e.now)
  {
    if key in m {
      ElapsedAdds(c, e.now, m[key].last, 0);
    }
  }

  lemma {:induction false} BucketsAreSane(c: Config, events: seq<Event>, n: nat, key: string, now: int)
    requires c.rate > 0.0 && Before(events, n, now)
    ensures Sane(c, After(c, events, n), key, now)
  {
    if 0 < n {
      BucketsAreSane(c, events, n - 1, key, events[n - 1].now);
      StepIsSane(c, After(c, events, n - 1), events[n - 1], key);
    }
  }

  lemma AvailableShifts(c: Config, m: Levels, key: string, t: int, u: int)
    requires c.rate > 0.0 && t <= u
    ensures Available(c, m, key, u) == Min(c.burst as real, Available(c, m, key, t) + c.rate * Seconds(u - t))
  {
    ElapsedAdds(c, u, t, 0);
    if key in m {
      ElapsedAdds(c, u, t, m[key].last);
    }
  }

  /** A request takes one token from its own key if it is admitted, and nothing else. */
  lemma RequestTakesOne(c: Config, m: Levels, k: string, key: string, now: int)
    requires c.rate > 0.0
    ensures Available(c, Allowed(c, m, k, now), key, now)
            == Available(c, m, key, now) - if k == key && Admits(c, m, k, now) then 1.0 else 0.0
  {
    assert Seconds(now - now) * c.rate == 0.0;
  }

  /** A reap turns the bucket it drops into a full one. */
  lemma ReapMintsSlack(c: Config, m: Levels, key: string, now: int)
    requires c.rate > 0.0 && 1 <= c.burst
    requires key in m ==> 0.0 <= m[key].tokens
    ensures var r := Reaped(c, m, now);
            if key in m && key !in r
            then Available(c, r, key, now) <= Available(c, m, key, now) + c.rate * Slack(c)
            else Available(c, r, key, now) == Available(c, m, key, now)
  {
    if key in m && Stale(c, m[key], now) {
      WipeMintsSlack(c, m[key], now);
    }
  }

  /** How a bucket's tokens relate to the headroom of the key's history. */
  predicate Refines(c: Config, events: seq<Event>, n: nat, key: string, now: int)
    requires c.rate > 0.0 && n <= |events|
  {
    var a, h := Available(c, After(c, events, n), key, now), Headroom(c, History(c, events, n, key), now);
    && (1 <= c.burst ==> a <= h)
    && (Reapless(events, n) ==> a == h)
  }

  lemma RequestKeepsRefinement(c: Config, events: seq<Event>, n: nat, key: string)
    requires c.rate > 0.0 && n < |events|
    requires events[n].Request? && Refines(c, events, n, key, events[n].now)
    ensures Refines(c, events, n + 1, key, events[n].now)
  {
    hide Available, Headroom, Allowed, Admits;
    RequestTakesOne(c, After(c, events, n), events[n].key, key, events[n].now);
    HeadroomAdmits(c, History(c, events, n, key), events[n].now);
    assert Reapless(events, n + 1) ==> Reapless(events, n);
  }

  lemma ReapKeepsRefinement(c: Config, events: seq<Event>, n: nat, key: string)
    requires c.rate > 0.0 && n < |events| && Ordered(events)
    requires events[n].Reap? && Refines(c, events, n, key, events[n].now)
    ensures Refines(c, events, n + 1, key, events[n].now)
  {
    hide Available, Headroom, Reaped, Slack;
    var now, m := events[n].now, After(c, events, n);
    assert !Reapless(events, n + 1);
    if 1 <= c.burst {
      BucketsAreSane(c, events, n, key, now);
      SlackIsAFraction(c);
      ReapMintsSlack(c, m, key, now);
      HeadroomWipes(c, History(c, events, n, key), now);
      AvailableIsCapped(c, Reaped(c, m, now), key, now);
    }
  }

  lemma AvailableIsCapped(c: Config, m: Levels, key: string, now: int)
    ensures Available(c, m, key, now) <= c.burst as real
  {
  }

  /** The refinement: a bucket never holds more than the least headroom of the key's windows,
      and in a run without reaps it holds exactly that. */
  lemma {:induction false} BucketIsHeadroom(c: Config, events: seq<Event>, n: nat, key: string, now: int)
    requires c.rate > 0.0 && Before(events, n, now)
    ensures Refines(c, events, n, key, now)
  {
    if 0 < n {
      var t := events[n - 1].now;
      BucketIsHeadroom(c, events, n - 1, key, t);
      if events[n - 1].Request? {
        RequestKeepsRefinement(c, events, n - 1, key);
      } else {
        ReapKeepsRefinement(c, events, n - 1, key);
      }
      hide Available, Headroom, After, History;
      AvailableShifts(c, After(c, events, n), key, t, now);
      HeadroomShifts(c, History(c, events, n, key), t, now);
    }
  }

  // ----- Main results -----

  /** Exact admission: without reaps, a request is admitted if and only if it is the key's
      first, or it leaves every window of the key's admissions within burst + rate * time.
      (With a burst below 1 a key's first request is admitted although it fits no window.) */
  lemma {:induction false} AdmissionIsExact(c: Config, events: seq<Event>, i: nat)
    requires c.rate > 0.0 && i < |events| && Ordered(events) && Reapless(events, i)
    requires events[i].Request?
    ensures var h := History(c, events, i, events[i].key);
            Answer(c, events, i) <==> |h| == 0 || (1 <= c.burst && Fits(c, h, events[i].now))
  {
    hide After, History;
    var key, now := events[i].key, events[i].now;
    BucketIsHeadroom(c, events, i, key, now);
    HeadroomFits(c, History(c, events, i, key), now);
    KnownKeys(c, events, i, key);
  }

  lemma {:induction false} KnownKeys(c: Config, events: seq<Event>, n: nat, key: string)
    requires c.rate > 0.0 && n <= |events| && Reapless(events, n)
    ensures key in After(c, events, n) <==> 0 < |History(c, events, n, key)|
  {
    if 0 < n {
      KnownKeys(c, events, n - 1, key);
    }
  }

  lemma LastWindow(c: Config, g: seq<Mark>, now: int, i: nat)
    requires c.rate > 0.0 && 1 <= c.burst
    requires 1.0 <= Headroom(c, g, now)
    requires i <= |g| && (i < |g| ==> g[i].Admit?)
    ensures var start := if i < |g| then g[i].at else now;
            Admissions(g[i..] + [Admit(now)]) as real <= Limit(c, now - start, Wipes(g[i..] + [Admit(now)]))
  {
    HeadroomFits(c, g, now);
    CountsAppend(g[i..], Admit(now));
    if i < |g| {
      assert WindowFits(c, g[i..], g[i].at, now);
    }
  }

  /** No run, reaps and all, admits more in any window of a key than burst + rate * time, plus
      the truncated fraction of a second's refill for each time the key was dropped inside it. */
  lemma {:induction false} NoWindowExceeds(c: Config, events: seq<Event>, n: nat, key: string, i: nat, j: nat)
    requires c.rate > 0.0 && 1 <= c.burst && Ordered(events) && n <= |events|
    requires var h := History(c, events, n, key); i <= j < |h| && h[i].Admit? && h[j].Admit?
    ensures var h := History(c, events, n, key);
            Admissions(h[i..j + 1]) as real <= Limit(c, h[j].at - h[i].at, Wipes(h[i..j + 1]))
  {
    hide Headroom, Admissions, Limit, Wipes, After;
    var e, g, h := events[n - 1], History(c, events, n - 1, key), History(c, events, n, key);
    if j < |g| {
      NoWindowExceeds(c, events, n - 1, key, i, j);
      assert g[i..j + 1] == h[i..j + 1];
    } else {
      BucketIsHeadroom(c, events, n - 1, key, e.now);
      LastWindow(c, g, e.now, i);
      assert h[i..j + 1] == g[i..] + [Admit(e.now)];
    }
  }

  /** With a refill time of whole seconds there is no slack at all. */
  lemma WholeRefillHasNoSlack(rpm: int, burst: int)
    requires 0 < rpm && 1 <= burst && (60 * burst) % rpm == 0
    ensures Slack(PerMinute(rpm, burst)) == 0.0
  {
    var c, q := PerMinute(rpm, burst), 60 * burst / rpm;
    assert 60 * burst == q * rpm;
    assert (60 * burst) as real == q as real * rpm as real;
    assert burst as real == q as real * c.rate;
    assert FullAfter(c) == q as real;
  }
}
