/** When the limiter's reaper can be observed.

    The reaper promises that a bucket it drops "carries no state". That is decided by
    the configuration alone, and this module proves for which configurations it holds. */
module RateReaping {
  import opened RateLimit
  import opened RateWindows

  /** The buckets after the first `n` events of a run, if its reaps are skipped. */
  function Kept(c: Config, events: seq<Event>, n: nat): Levels
    requires n <= |events|
  {
    if n == 0 then map[]
    else if events[n - 1].Request? then Step(c, Kept(c, events, n - 1), events[n - 1])
    else Kept(c, events, n - 1)
  }

  /** The answer to request `i` if the reaps are skipped. */
  predicate KeptAnswer(c: Config, events: seq<Event>, i: nat)
    requires i < |events| && events[i].Request?
  {
    Admits(c, Kept(c, events, i), events[i].key, events[i].now)
  }

  /** No request of any run ever gets another answer because of a reap. */
  ghost predicate ReapingIsInvisible(c: Config) {
    forall events: seq<Event>, i: nat | Ordered(events) && i < |events| && events[i].Request? ::
      Answer(c, events, i) <==> KeptAnswer(c, events, i)
  }

  /** No whole number of nanoseconds lies strictly between the truncated refill time and the real one. */
  predicate RefillsBeforeStale(c: Config)
    requires c.rate > 0.0
  {
    FullAfter(c) * SECOND as real <= (Truncate(FullAfter(c)) * SECOND + 1) as real
  }

  // ----- The condition is enough -----

  predicate FullAt(c: Config, b: Level, now: int) {
    b.last <= now && Refilled(c, b, now) == c.burst as real
  }

  /** What differs between the two limiters: keys that one has dropped and that are full in the other. */
  predicate Same(c: Config, reaped: Levels, kept: Levels, now: int) {
    && (forall k <- reaped :: k in kept && kept[k] == reaped[k])
    && (forall k <- kept :: k !in reaped ==> FullAt(c, kept[k], now))
  }

  lemma StaleIsFull(c: Config, b: Level, now: int)
    requires c.rate > 0.0 && RefillsBeforeStale(c) && 0.0 <= b.tokens && b.last <= now
    requires Stale(c, b, now)
    ensures FullAt(c, b, now)
  {
    assert FullAfter(c) * SECOND as real <= (now - b.last) as real;
    assert FullAfter(c) <= Seconds(now - b.last);
    assert c.burst as real <= Seconds(now - b.last) * c.rate by {
      assert FullAfter(c) * c.rate <= Seconds(now - b.last) * c.rate;
    }
  }

  lemma FullStaysFull(c: Config, b: Level, t: int, u: int)
    requires c.rate > 0.0 && t <= u && FullAt(c, b, t)
    ensures FullAt(c, b, u)
  {
    ElapsedAdds(c, u, t, b.last);
  }

  lemma RequestKeepsSame(c: Config, reaped: Levels, kept: Levels, key: string, now: int)
    requires c.rate > 0.0 && 1 <= c.burst && Same(c, reaped, kept, now)
    ensures Same(c, Allowed(c, reaped, key, now), Allowed(c, kept, key, now), now)
    ensures Admits(c, reaped, key, now) <==> Admits(c, kept, key, now)
  {
  }

  lemma ReapKeepsSame(c: Config, m: Levels, kept: Levels, now: int)
    requires c.rate > 0.0 && 1 <= c.burst && RefillsBeforeStale(c) && Same(c, m, kept, now)
    requires forall k <- m :: Sane(c, m, k, now)
    ensures Same(c, Reaped(c, m, now), kept, now)
  {
    forall k | k in kept && k !in Reaped(c, m, now) ensures FullAt(c, kept[k], now) {
      if k in m {
        assert Sane(c, m, k, now);
        StaleIsFull(c, m[k], now);
      }
    }
  }

  lemma SameLasts(c: Config, reaped: Levels, kept: Levels, t: int, u: int)
    requires c.rate > 0.0 && t <= u && Same(c, reaped, kept, t)
    ensures Same(c, reaped, kept, u)
  {
    forall k | k in kept && k !in reaped ensures FullAt(c, kept[k], u) {
      FullStaysFull(c, kept[k], t, u);
    }
  }

  lemma {:induction false} KeptRunIsSame(c: Config, events: seq<Event>, n: nat, now: int)
    requires c.rate > 0.0 && 1 <= c.burst && RefillsBeforeStale(c) && Before(events, n, now)
    ensures Same(c, After(c, events, n), Kept(c, events, n), now)
  {
    if 0 < n {
      var e, m := events[n - 1], After(c, events, n - 1);
      KeptRunIsSame(c, events, n - 1, e.now);
      hide Same, Reaped, Allowed;
      if e.Request? {
        RequestKeepsSame(c, m, Kept(c, events, n - 1), e.key, e.now);
      } else {
        forall k | k in m ensures Sane(c, m, k, e.now) {
          BucketsAreSane(c, events, n - 1, k, e.now);
        }
        ReapKeepsSame(c, m, Kept(c, events, n - 1), e.now);
      }
      SameLasts(c, After(c, events, n), Kept(c, events, n), e.now, now);
    }
  }

  // ----- The condition is necessary -----

  /** The buckets after `n` requests of one key at one moment. */
  function Drained(c: Config, m: Levels, n: nat, now: int): Levels {
    if n == 0 then m else Allowed(c, Drained(c, m, n - 1, now), "", now)
  }

  lemma EmptyRefuses(c: Config, m: Levels, now: int)
    requires c.rate > 0.0 && 1 <= c.burst && Available(c, m, "", now) < 1.0
    ensures !Admits(c, m, "", now)
  {
  }

  lemma DrainedStep(c: Config, m: Levels, n: nat, now: int)
    ensures Drained(c, m, 0, now) == m
    ensures Drained(c, m, n + 1, now) == Allowed(c, Drained(c, m, n, now), "", now)
  {
  }

  /** Such requests are all admitted exactly when there are as many tokens. */
  lemma {:induction false} Draining(c: Config, m: Levels, n: nat, now: int)
    requires c.rate > 0.0 && 1 <= c.burst
    ensures var a := Available(c, m, "", now);
            if n as real <= a
            then
              && (forall i: nat :: i < n ==> Admits(c, Drained(c, m, i, now), "", now))
              && Available(c, Drained(c, m, n, now), "", now) == a - n as real
            else n == 0 || exists i: nat :: i < n && !Admits(c, Drained(c, m, i, now), "", now)
  {
    DrainedStep(c, m, if 0 < n then n - 1 else 0, now);
    if 0 < n {
      Draining(c, m, n - 1, now);
      RequestTakesOne(c, Drained(c, m, n - 1, now), "", "", now);
      hide Available, Drained, Admits;
      var a := Available(c, m, "", now);
      if a < n as real && (n == 1 || (n - 1) as real <= a) {
        EmptyRefuses(c, Drained(c, m, n - 1, now), now);
      }
    }
  }

  /** `b` requests at time 0, a reap at `d`, and `b` requests at `d`. */
  predicate TwoBursts(events: seq<Event>, b: nat, d: int) {
    && |events| == 2 * b + 1
    && events[b] == Reap(d)
    && (forall i :: 0 <= i < b ==> events[i] == Request("", 0))
    && (forall i :: b < i < |events| ==> events[i] == Request("", d))
  }

  lemma {:induction false} FirstBurst(c: Config, events: seq<Event>, b: nat, d: int, n: nat)
    requires TwoBursts(events, b, d) && n <= b
    ensures After(c, events, n) == Drained(c, map[], n, 0) == Kept(c, events, n)
  {
    if 0 < n {
      FirstBurst(c, events, b, d, n - 1);
    }
  }

  lemma {:induction false} SecondBurst(c: Config, events: seq<Event>, b: nat, d: int, n: nat)
    requires TwoBursts(events, b, d) && n <= b
    ensures After(c, events, b + 1 + n) == Drained(c, Reaped(c, After(c, events, b), d), n, d)
    ensures Kept(c, events, b + 1 + n) == Drained(c, Kept(c, events, b), n, d)
  {
    if 0 < n {
      SecondBurst(c, events, b, d, n - 1);
      assert events[b + n] == Request("", d);
    }
  }

  /** A burst from the start empties the bucket. */
  lemma BurstEmpties(c: Config, events: seq<Event>, d: int)
    requires c.rate > 0.0 && 1 <= c.burst && 0 <= d && TwoBursts(events, c.burst, d) && Ordered(events)
    ensures var m := After(c, events, c.burst);
            Kept(c, events, c.burst) == m && Available(c, m, "", 0) == 0.0 && Sane(c, m, "", 0)
  {
    hide Available, Drained;
    FirstBurst(c, events, c.burst, d, c.burst);
    FullAtStart(c);
    Draining(c, map[], c.burst, 0);
    BucketsAreSane(c, events, c.burst, "", 0);
  }

  lemma FullAtStart(c: Config)
    ensures Available(c, map[], "", 0) == c.burst as real
  {
  }

  lemma StaleBeforeFull(c: Config, d: int)
    requires c.rate > 0.0 && 1 <= c.burst && !RefillsBeforeStale(c)
    requires d == Truncate(FullAfter(c)) * SECOND + 1
    ensures 0 < d && c.rate * Seconds(d) < c.burst as real
  {
    assert 0.0 <= FullAfter(c);
    assert Seconds(d) < FullAfter(c);
    assert c.rate * Seconds(d) < c.rate * FullAfter(c);
  }

  lemma DropsEmptyBucket(c: Config, m: Levels, d: int)
    requires c.rate > 0.0 && Sane(c, m, "", 0) && d == Truncate(FullAfter(c)) * SECOND + 1
    ensures Available(c, Reaped(c, m, d), "", d) == c.burst as real
  {
  }

  /** After the first burst and `d`, the limiter that reaps admits another whole burst and the other does not. */
  lemma SlowRefillIsVisible(c: Config)
    requires c.rate > 0.0 && 1 <= c.burst && !RefillsBeforeStale(c)
    ensures !ReapingIsInvisible(c)
  {
    hide Available, Drained, Reaped, After, Kept, Sane, Admits;
    var b, d := c.burst, Truncate(FullAfter(c)) * SECOND + 1;
    StaleBeforeFull(c, d);
    var events := seq(2 * b + 1, i => if i < b then Request("", 0) else if i == b then Reap(d) else Request("", d));
    var m := After(c, events, b);
    BurstEmpties(c, events, d);
    AvailableShifts(c, m, "", 0, d);
    Draining(c, m, b, d);
    var i: nat :| i < b && !Admits(c, Drained(c, m, i, d), "", d);
    DropsEmptyBucket(c, m, d);
    Draining(c, Reaped(c, m, d), b, d);
    SecondBurst(c, events, b, d, i);
    assert Answer(c, events, b + 1 + i) && !KeptAnswer(c, events, b + 1 + i);
  }

  // ----- Bursts below one -----

  /** Such a limiter admits a key's first request and no other, but forgets which keys it has seen. */
  lemma SmallBurstIsVisible(c: Config)
    requires c.rate > 0.0 && c.burst < 1
    ensures !ReapingIsInvisible(c)
  {
    var stale := Truncate(FullAfter(c)) * SECOND;
    var d := if stale < 0 then 0 else stale + 1;
    var events := [Request("", 0), Reap(d), Request("", d)];
    var b := Level(c.burst as real - 1.0, 0);
    FirstRequestThenReap(c, events, d);
    assert Stale(c, b, d);
    assert After(c, events, 2) == map[];
    assert Refilled(c, b, d) < 1.0;
    assert Answer(c, events, 2) && !KeptAnswer(c, events, 2);
    assert Ordered(events);
  }

  lemma FirstRequestThenReap(c: Config, events: seq<Event>, d: int)
    requires c.rate > 0.0 && events == [Request("", 0), Reap(d), Request("", d)]
    ensures var m := map["" := Level(c.burst as real - 1.0, 0)];
            Kept(c, events, 2) == m && After(c, events, 2) == Reaped(c, m, d)
  {
    hide Reaped;
    assert After(c, events, 0) == map[] == Kept(c, events, 0);
    assert After(c, events, 1) == map["" := Level(c.burst as real - 1.0, 0)] == Kept(c, events, 1);
  }

  lemma DisabledIsInvisible(c: Config)
    requires c.rate <= 0.0
    ensures ReapingIsInvisible(c)
  {
  }

  // ----- Main results -----

  /** Reaping can never be observed if and only if the limiter is disabled, or its burst is at
      least one and the bucket refills before the truncated refill time and one nanosecond
      have gone by. */
  lemma {:induction false} ReapingIsInvisibleExactly(c: Config)
    ensures ReapingIsInvisible(c) <==> c.rate <= 0.0 || (1 <= c.burst && RefillsBeforeStale(c))
  {
    if c.rate <= 0.0 {
      DisabledIsInvisible(c);
    } else if c.burst < 1 {
      SmallBurstIsVisible(c);
    } else if RefillsBeforeStale(c) {
      forall events: seq<Event>, i: nat | Ordered(events) && i < |events| && events[i].Request?
        ensures Answer(c, events, i) <==> KeptAnswer(c, events, i)
      {
        KeptRunIsSame(c, events, i, events[i].now);
        RequestKeepsSame(c, After(c, events, i), Kept(c, events, i), events[i].key, events[i].now);
      }
    } else {
      SlowRefillIsVisible(c);
    }
  }

  // ----- In terms of the configuration's two integers -----

  lemma FullAfterInIntegers(rpm: int, burst: int)
    requires 0 < rpm && 0 <= burst
    ensures var c := PerMinute(rpm, burst);
            && FullAfter(c) * rpm as real == (60 * burst) as real
            && Truncate(FullAfter(c)) == 60 * burst / rpm
  {
    var c, q, r := PerMinute(rpm, burst), 60 * burst / rpm, 60 * burst % rpm;
    var full := FullAfter(c);
    assert full * c.rate == burst as real;
    assert full * rpm as real == (60 * burst) as real;
    assert 60 * burst == q * rpm + r;
    FloorOfQuotient(full, rpm, q, r);
  }

  lemma Scales(a: real, b: real, d: real)
    requires 0.0 < d
    ensures a <= b <==> a * d <= b * d
  {
    if a <= b {
      assert 0.0 <= (b - a) * d;
    } else {
      assert 0.0 < (a - b) * d;
    }
  }

  lemma Quotient(x: real, d: real, q: real, r: real)
    requires 0.0 <= r < d && x * d == q * d + r
    ensures q <= x < q + 1.0
  {
    Scales(q, x, d);
    Scales(q + 1.0, x, d);
    assert (q + 1.0) * d == q * d + d;
  }

  lemma FloorOfQuotient(x: real, d: int, q: int, r: int)
    requires 0 < d && 0 <= r < d && 0 <= q && x * d as real == (q * d + r) as real
    ensures Truncate(x) == q
  {
    assert (q * d) as real == q as real * d as real;
    Quotient(x, d as real, q as real, r as real);
    Floored(x, q);
  }

  lemma Floored(x: real, q: int)
    requires 0 <= q && q as real <= x < q as real + 1.0
    ensures Truncate(x) == q
  {
  }

  /** The conversion to whole seconds goes towards zero, whatever the sign. */
  lemma TruncatesTowardsZero(x: real)
    ensures 0.0 <= x ==> 0 <= Truncate(x) && Truncate(x) as real <= x < Truncate(x) as real + 1.0
    ensures x < 0.0 ==> Truncate(x) <= 0 && Truncate(x) as real - 1.0 < x <= Truncate(x) as real
  {
  }

  /** The reaper at work: with a positive rate a bucket is dropped exactly when it has not been
      asked for longer than the whole seconds of its refill time. */
  lemma ReapsExactly(rpm: int, burst: int, m: Levels, now: int, key: string)
    requires 0 < rpm && 0 <= burst && key in m
    ensures key !in Reaped(PerMinute(rpm, burst), m, now) <==> 60 * burst / rpm * SECOND < now - m[key].last
  {
    FullAfterInIntegers(rpm, burst);
  }

  lemma RefillInIntegers(rpm: int, burst: int)
    requires 0 < rpm && 0 <= burst
    ensures RefillsBeforeStale(PerMinute(rpm, burst)) <==> SECOND * (60 * burst % rpm) <= rpm
  {
    FullAfterInIntegers(rpm, burst);
    var x, q, r := FullAfter(PerMinute(rpm, burst)), 60 * burst / rpm, 60 * burst % rpm;
    assert 60 * burst == q * rpm + r;
    assert (q * rpm) as real == q as real * rpm as real;
    ScaledFraction(x, q as real, rpm as real, r as real, SECOND as real);
  }

  lemma ScaledFraction(x: real, q: real, d: real, r: real, k: real)
    requires 0.0 < d && x * d == q * d + r
    ensures x * k <= q * k + 1.0 <==> k * r <= d
  {
    var y := Rearranged(x, q, d, r, k);
    AtMostOne(y, d, k * r);
  }

  lemma AtMostOne(y: real, d: real, yd: real)
    requires 0.0 < d && y * d == yd
    ensures y <= 1.0 <==> yd <= d
  {
    Scales(y, 1.0, d);
  }

  lemma Rearranged(x: real, q: real, d: real, r: real, k: real) returns (y: real)
    requires x * d == q * d + r
    ensures y * d == k * r && y == x * k - q * k
  {
    y := (x - q) * k;
    assert (x - q) * d == r;
    assert y * d == k * ((x - q) * d);
  }

  /** On what `New` is given: reaping is invisible if and only if the limiter is disabled, or
      the burst is at least one and the rate divides 60 * burst up to a billionth of itself. */
  lemma {:induction false} ReapingIsInvisibleForIntegers(rpm: int, burst: int)
    ensures ReapingIsInvisible(PerMinute(rpm, burst)) <==>
            rpm <= 0 || (1 <= burst && SECOND * (60 * burst % rpm) <= rpm)
  {
    hide ReapingIsInvisible, RefillsBeforeStale;
    ReapingIsInvisibleExactly(PerMinute(rpm, burst));
    if 0 < rpm && 1 <= burst {
      RefillInIntegers(rpm, burst);
    }
  }

  /** So for every rate below a billion a minute it is invisible exactly when the bucket
      refills in whole seconds. */
  lemma {:induction false} WholeSecondsAreInvisibleExactly(rpm: int, burst: int)
    requires 0 < rpm < SECOND && 1 <= burst
    ensures ReapingIsInvisible(PerMinute(rpm, burst)) <==> 60 * burst % rpm == 0
  {
    hide ReapingIsInvisible;
    ReapingIsInvisibleForIntegers(rpm, burst);
  }

  /** Seven requests a minute with a burst of five: reaping can be observed. */
  lemma SevenPerMinuteIsVisible()
    ensures !ReapingIsInvisible(PerMinute(7, 5))
  {
    hide ReapingIsInvisible;
    WholeSecondsAreInvisibleExactly(7, 5);
  }
}
