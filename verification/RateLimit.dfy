/** The per-key token bucket of internal/ratelimit/ratelimit.go.

    Times are integer nanoseconds; Go's float64 token counts are `real`. */
module RateLimit {

  const SECOND := 1_000_000_000

  datatype Config = Config(rate: real, burst: int)

  datatype Level = Level(tokens: real, last: int)

  type Levels = map<string, Level>

  function PerMinute(rpm: int, burst: int): Config {
    Config(rpm as real / 60.0, burst)
  }

  function Min(x: real, y: real): real {
    if x <= y then x else y
  }

  function Seconds(ns: int): real {
    ns as real / SECOND as real
  }

  /** The tokens of a bucket after refilling up to `now`. */
  function Refilled(c: Config, b: Level, now: int): real {
    Min(b.tokens + Seconds(now - b.last) * c.rate, c.burst as real)
  }

  predicate Admits(c: Config, m: Levels, key: string, now: int) {
    c.rate <= 0.0 || key !in m || 1.0 <= Refilled(c, m[key], now)
  }

  function Allowed(c: Config, m: Levels, key: string, now: int): Levels {
    if c.rate <= 0.0 then m
    else if key !in m then m[key := Level(c.burst as real - 1.0, now)]
    else
      var t := Refilled(c, m[key], now);
      m[key := Level(if t < 1.0 then t else t - 1.0, now)]
  }

  /** Go's conversion of a float to an integer drops the fraction. */
  function Truncate(x: real): int {
    if 0.0 <= x then x.Floor else -(-x).Floor
  }

  /** Seconds from empty to full. */
  function FullAfter(c: Config): real
    requires c.rate > 0.0
  {
    c.burst as real / c.rate
  }

  predicate Stale(c: Config, b: Level, now: int)
    requires c.rate > 0.0
  {
    b.last < now - Truncate(FullAfter(c)) * SECOND
  }

  function Reaped(c: Config, m: Levels, now: int): Levels {
    if c.rate <= 0.0 then m
    else map k | k in m && !Stale(c, m[k], now) :: m[k]
  }

  class Bucket {
    var tokens: real
    var last: int

    constructor (tokens: real, last: int)
      ensures this.tokens == tokens && this.last == last
    {
      this.tokens, this.last := tokens, last;
    }

    /** Refills for the elapsed time, capped at the burst, and takes a token if there is one. */
    method Take(c: Config, now: int) returns (ok: bool)
      modifies this
      ensures var t := old(Refilled(c, Level(tokens, last), now));
              ok == (1.0 <= t) && last == now && tokens == if ok then t - 1.0 else t
    {
      tokens := tokens + Seconds(now - last) * c.rate;
      if tokens > c.burst as real {
        tokens := c.burst as real;
      }
      last := now;
      ok := tokens >= 1.0;
      if ok {
        tokens := tokens - 1.0;
      }
    }
  }

  class Limiter {
    const config: Config
    var buckets: map<string, Bucket>

    ghost predicate Valid()
      reads this
    {
      forall k, l :: k in buckets && l in buckets && k != l ==> buckets[k] != buckets[l]
    }

    ghost function Value(): Levels
      reads this, buckets.Values
    {
      map k | k in buckets :: Level(buckets[k].tokens, buckets[k].last)
    }

    constructor (rpm: int, burst: int)
      ensures Valid() && Value() == map[] && config == PerMinute(rpm, burst)
      ensures config.rate * 60.0 == rpm as real && config.burst == burst
    {
      config := PerMinute(rpm, burst);
      buckets := map[];
    }

    method Insert(key: string, tokens: real, now: int)
      requires Valid() && key !in buckets
      modifies this`buckets
      ensures Valid() && fresh(buckets.Values - old(buckets.Values))
      ensures Value() == old(Value())[key := Level(tokens, now)]
    {
      var b := new Bucket(tokens, now);
      buckets := buckets[key := b];
    }

    method Allow(key: string, now: int) returns (ok: bool)
      requires Valid()
      modifies this, buckets.Values
      ensures Valid() && fresh(buckets.Values - old(buckets.Values))
      ensures ok <==> Admits(config, old(Value()), key, now)
      // A disabled limiter admits everything and remembers nothing.
      ensures config.rate <= 0.0 ==> ok && buckets == old(buckets) && Value() == old(Value())
      ensures Value() == Allowed(config, old(Value()), key, now)
    {
      if config.rate <= 0.0 {
        return true;
      }
      if key !in buckets {
        Insert(key, config.burst as real - 1.0, now);
        return true;
      }
      var b := buckets[key];
      assert b in buckets.Values;
      hide Refilled;
      ok := b.Take(config, now);
    }

    /** Visits the keys in an arbitrary order, as Go's map iteration does. */
    method Reap(now: int)
      requires Valid()
      modifies this
      ensures Valid() && buckets.Values <= old(buckets.Values)
      ensures Value() == Reaped(config, old(Value()), now)
    {
      if config.rate <= 0.0 {
        return;
      }
      hide Truncate;
      var fullAfter := config.burst as real / config.rate;
      var cutoff := now - Truncate(fullAfter) * SECOND;
      var todo := buckets.Keys;
      while todo != {}
        invariant todo <= buckets.Keys <= old(buckets).Keys
        invariant forall k <- old(buckets) :: k in buckets <==> k in todo || !(old(buckets)[k].last < cutoff)
        invariant forall k <- buckets :: buckets[k] == old(buckets)[k]
        decreases |todo|
      {
        var k :| k in todo;
        if buckets[k].last < cutoff {
          buckets := buckets - {k};
        }
        todo := todo - {k};
      }
    }
  }
}
