/** The session-to-sandbox map of internal/broker/sandbox.go. Times are nanoseconds.
    Each method is one critical section, or a caller of such methods that no other
    request interrupts; module SandboxOwnership interleaves the critical sections. */
module SandboxProvider {
  import opened Wrappers

  /** `http://ip:port` */
  datatype AgentUrl = AgentUrl(ip: string, port: nat)

  datatype Held = Held(claim: string, url: AgentUrl, lastSeen: int)

  type Table = map<string, Held>

  /** What the cluster answers to CreateSandbox. A pod may come without an address. */
  datatype Creation = Refused(reason: string) | Sandbox(claim: string, podIp: string)

  function Touched(t: Table, id: string, now: int): Table {
    if id in t then t[id := t[id].(lastSeen := now)] else t
  }

  function Inserted(t: Table, id: string, claim: string, url: AgentUrl, now: int): Table {
    t[id := Held(claim, url, now)]
  }

  predicate Stale(h: Held, ttl: int, now: int) {
    h.lastSeen < now - ttl
  }

  function StaleIds(t: Table, ttl: int, now: int): set<string> {
    set id | id in t && Stale(t[id], ttl, now)
  }

  function Evicted(t: Table, ttl: int, now: int): Table {
    t - StaleIds(t, ttl, now)
  }

  predicate Lists(ids: seq<string>, keys: set<string>) {
    (forall i :: 0 <= i < |ids| ==> ids[i] in keys) &&
    (forall id <- keys :: id in ids) &&
    (forall i, j :: 0 <= i < j < |ids| ==> ids[i] != ids[j])
  }

  /** `claims` names the sandbox of each of the ids, in order. */
  predicate ClaimsOf(t: Table, ids: seq<string>, claims: seq<string>) {
    |claims| == |ids| && forall i :: 0 <= i < |ids| ==> ids[i] in t && claims[i] == t[ids[i]].claim
  }

  /** `claims` names the sandbox of each stale session once, in some order. */
  ghost predicate StaleClaims(t: Table, ttl: int, now: int, claims: seq<string>) {
    exists ids: seq<string> :: Lists(ids, StaleIds(t, ttl, now)) && ClaimsOf(t, ids, claims)
  }

  lemma ListStarts(t: Table)
    ensures Lists([], {}) && ClaimsOf(t, [], [])
  {
  }

  lemma ListGrows(t: Table, ids: seq<string>, claims: seq<string>, keys: set<string>, id: string)
    requires Lists(ids, keys) && ClaimsOf(t, ids, claims) && id in t && id !in keys
    ensures Lists(ids + [id], keys + {id}) && ClaimsOf(t, ids + [id], claims + [t[id].claim])
  {
    forall k <- keys + {id} ensures k in ids + [id] {
    }
  }

  class Entry {
    const claim: string
    const url: AgentUrl
    var lastSeen: int

    constructor (claim: string, url: AgentUrl, now: int)
      ensures this.claim == claim && this.url == url && lastSeen == now
    {
      this.claim, this.url, lastSeen := claim, url, now;
    }
  }

  class Provider {
    const ttl: int
    const port: nat
    var sessions: map<string, Entry>
    var requested: seq<string>  // the DeleteSandbox calls made so far

    ghost predicate Valid()
      reads this
    {
      forall i, j :: i in sessions && j in sessions && i != j ==> sessions[i] != sessions[j]
    }

    ghost function Value(): Table
      reads this, sessions.Values
    {
      map id | id in sessions :: Held(sessions[id].claim, sessions[id].url, sessions[id].lastSeen)
    }

    constructor (ttl: int, port: nat)
      ensures Valid() && Value() == map[] && requested == []
      ensures this.ttl == ttl && this.port == port
    {
      this.ttl, this.port, sessions, requested := ttl, port, map[], [];
    }

    /** The first critical section of Acquire. */
    method Lookup(id: string, now: int) returns (url: Option<AgentUrl>)
      requires Valid()
      modifies sessions.Values`lastSeen
      ensures Valid() && Value() == Touched(old(Value()), id, now)
      ensures sessions == old(sessions) && (id in sessions ==> sessions[id].lastSeen == now)
      ensures url == if id in old(Value()) then Some(old(Value())[id].url) else None
    {
      if id !in sessions {
        return None;
      }
      var e := sessions[id];
      e.lastSeen := now;
      return Some(e.url);
    }

    /** The second critical section of Acquire, which does not look again. */
    method Insert(id: string, claim: string, url: AgentUrl, now: int)
      requires Valid()
      modifies this`sessions
      ensures Valid() && Value() == Inserted(old(Value()), id, claim, url, now)
      ensures id in sessions && sessions == old(sessions)[id := sessions[id]]
      ensures sessions[id].claim == claim && sessions[id].url == url && sessions[id].lastSeen == now
    {
      var e := new Entry(claim, url, now);
      sessions := sessions[id := e];
    }

    method DeleteClaim(claim: string)
      modifies this`requested
      ensures requested == old(requested) + [claim]
    {
      requested := requested + [claim];
    }

    method Acquire(id: string, lookedAt: int, answer: Creation, now: int) returns (r: Result<AgentUrl, string>)
      requires Valid()
      modifies this`sessions, this`requested, sessions.Values`lastSeen
      ensures Valid()
      ensures id in old(Value()) ==>
        r == Ok(old(Value())[id].url) &&
        Value() == Touched(old(Value()), id, lookedAt) && requested == old(requested)
      ensures id !in old(Value()) && answer.Refused? ==>
        r == Err("create sandbox: " + answer.reason) && Value() == old(Value()) && requested == old(requested)
      ensures id !in old(Value()) && answer.Sandbox? && answer.podIp == "" ==>
        r == Err("sandbox " + answer.claim + " has no pod IP") && Value() == old(Value()) &&
        requested == old(requested) + [answer.claim]
      ensures id !in old(Value()) && answer.Sandbox? && answer.podIp != "" ==>
        r == Ok(AgentUrl(answer.podIp, port)) && requested == old(requested) &&
        Value() == Inserted(old(Value()), id, answer.claim, AgentUrl(answer.podIp, port), now)
    {
      var known := Lookup(id, lookedAt);
      if known.Some? {
        return Ok(known.value);
      }
      match answer
      case Refused(reason) =>
        return Err("create sandbox: " + reason);
      case Sandbox(claim, ip) =>
        if ip == "" {
          DeleteClaim(claim);
          return Err("sandbox " + claim + " has no pod IP");
        }
        var url := AgentUrl(ip, port);
        Insert(id, claim, url, now);
        return Ok(url);
    }

    method Targets() returns (urls: map<string, AgentUrl>)
      ensures urls == map id | id in Value() :: Value()[id].url
    {
      urls := map[];
      var todo := sessions.Keys;
      while todo != {}
        invariant todo <= sessions.Keys
        invariant urls == map id | id in sessions && id !in todo :: sessions[id].url
        decreases |todo|
      {
        var id :| id in todo;
        urls := urls[id := sessions[id].url];
        todo := todo - {id};
      }
    }

    /** The critical section of Release. */
    method Remove(id: string) returns (claim: Option<string>)
      requires Valid()
      modifies this`sessions
      ensures Valid() && Value() == old(Value()) - {id}
      ensures claim == if id in old(Value()) then Some(old(Value())[id].claim) else None
    {
      if id !in sessions {
        return None;
      }
      claim := Some(sessions[id].claim);
      sessions := sessions - {id};
    }

    method Release(id: string)
      requires Valid()
      modifies this`sessions, this`requested
      ensures Valid() && Value() == old(Value()) - {id}
      ensures requested ==
        if id in old(Value()) then old(requested) + [old(Value())[id].claim] else old(requested)
    {
      var claim := Remove(id);
      if claim.Some? {
        DeleteClaim(claim.value);
      }
    }

    /** The loop of reap. Go's map iteration takes the ids in any order. */
    method Sweep(now: int) returns (stale: seq<string>)
      modifies this`sessions
      ensures sessions == old(sessions) - StaleIds(old(Value()), ttl, now)
      ensures StaleClaims(old(Value()), ttl, now, stale)
    {
      hide Lists, ClaimsOf;
      ghost var was, keys := Value(), StaleIds(Value(), ttl, now);
      ghost var gone: set<string>, ids: seq<string> := {}, [];
      var cutoff := now - ttl;
      stale := [];
      var todo := sessions.Keys;
      ListStarts(was);
      while todo != {}
        invariant todo <= sessions.Keys <= old(sessions).Keys
        invariant forall id <- sessions :: sessions[id] == old(sessions)[id]
        invariant forall id <- old(sessions) :: id in sessions <==> id !in gone
        invariant forall id :: id in gone <==> id in keys && id !in todo
        invariant Lists(ids, gone) && ClaimsOf(was, ids, stale)
        decreases |todo|
      {
        var id :| id in todo;
        if sessions[id].lastSeen < cutoff {
          ListGrows(was, ids, stale, gone, id);
          stale, ids, gone := stale + [sessions[id].claim], ids + [id], gone + {id};
          sessions := sessions - {id};
        }
        todo := todo - {id};
      }
      assert gone == keys;
    }

    /** The critical section of reap. */
    method Evict(now: int) returns (stale: seq<string>)
      requires Valid()
      modifies this`sessions
      ensures Valid() && Value() == Evicted(old(Value()), ttl, now)
      ensures forall id <- old(sessions) :: id in sessions <==> now - ttl <= old(sessions[id].lastSeen)
      ensures StaleClaims(old(Value()), ttl, now, stale)
    {
      hide StaleClaims;
      stale := Sweep(now);
    }

    method DeleteEach(claims: seq<string>)
      modifies this`requested
      ensures requested == old(requested) + claims
    {
      for i := 0 to |claims|
        invariant requested == old(requested) + claims[..i]
      {
        DeleteClaim(claims[i]);
      }
    }

    method Reap(now: int)
      requires Valid()
      modifies this`sessions, this`requested
      ensures Valid() && Value() == Evicted(old(Value()), ttl, now)
      ensures forall id <- old(sessions) :: id in sessions <==> now - ttl <= old(sessions[id].lastSeen)
      ensures old(requested) <= requested
      ensures StaleClaims(old(Value()), ttl, now, requested[|old(requested)|..])
    {
      hide StaleClaims, Evicted;
      var stale := Evict(now);
      DeleteEach(stale);
      assert requested[|old(requested)|..] == stale;
    }
  }
}
