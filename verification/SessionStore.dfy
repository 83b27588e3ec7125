/** The in-memory conversations of internal/session/session.go. Times are nanoseconds. */
module SessionStore {
  import opened AgentLoop
  import opened GoSlice

  /** One conversation. Its mutex is module SerialChats' business. */
  class Session {
    var history: Slice<Turn>
    var lastSeen: int

    constructor ()
      ensures Fits(history) && View(history) == [] && fresh(history.arr)
    {
      var nothing := new Turn[0];
      history, lastSeen := Slice(nothing, 0), 0;
    }
  }

  datatype Seen<Obj> = Seen(session: Obj, lastSeen: int)

  type Table<Obj> = map<string, Seen<Obj>>

  /** The table after `Get`, which puts `created` under an unknown id. */
  function Got<Obj>(t: Table<Obj>, id: string, now: int, created: Obj): Table<Obj> {
    t[id := Seen(if id in t then t[id].session else created, now)]
  }

  predicate Idle<Obj>(s: Seen<Obj>, ttl: int, now: int) {
    s.lastSeen < now - ttl
  }

  function Reaped<Obj>(t: Table<Obj>, ttl: int, now: int): Table<Obj> {
    map id | id in t && !Idle(t[id], ttl, now) :: t[id]
  }

  class Store {
    const ttl: int
    var sessions: map<string, Session>

    ghost predicate Valid()
      reads this
    {
      forall i, j :: i in sessions && j in sessions && i != j ==> sessions[i] != sessions[j]
    }

    ghost function Value(): Table<Session>
      reads this, sessions.Values
    {
      map id | id in sessions :: Seen(sessions[id], sessions[id].lastSeen)
    }

    constructor (ttl: int)
      ensures Valid() && Value() == map[] && this.ttl == ttl
    {
      this.ttl := ttl;
      sessions := map[];
    }

    method Get(id: string, now: int) returns (s: Session)
      requires Valid()
      modifies this, sessions.Values`lastSeen
      ensures Valid() && Value() == Got(old(Value()), id, now, s)
      ensures s == Value()[id].session && sessions == old(sessions)[id := s] && s.lastSeen == now
      ensures id in old(sessions) ==> s == old(sessions)[id]
      ensures id !in old(sessions) ==> fresh(s) && Fits(s.history) && View(s.history) == []
    {
      if id !in sessions {
        s := new Session();
        sessions := sessions[id := s];
      } else {
        s := sessions[id];
      }
      s.lastSeen := now;
    }

    /** Visits the ids in an arbitrary order, as Go's map iteration does. */
    method Reap(now: int) returns (removed: nat)
      requires Valid()
      modifies this
      ensures Valid() && Value() == Reaped(old(Value()), ttl, now)
      ensures forall id <- old(sessions) :: id in sessions <==> now - ttl <= old(sessions)[id].lastSeen
      ensures removed == |old(sessions)| - |sessions|
    {
      var cutoff := now - ttl;
      removed := 0;
      var todo := sessions.Keys;
      while todo != {}
        invariant todo <= sessions.Keys <= old(sessions).Keys
        invariant forall id <- old(sessions) :: id in sessions <==> id in todo || !(old(sessions)[id].lastSeen < cutoff)
        invariant forall id <- sessions :: sessions[id] == old(sessions)[id]
        invariant removed == |old(sessions)| - |sessions|
        decreases |todo|
      {
        var id :| id in todo;
        if sessions[id].lastSeen < cutoff {
          assert (sessions - {id}).Keys == sessions.Keys - {id};
          sessions := sessions - {id};
          removed := removed + 1;
        }
        todo := todo - {id};
      }
    }
  }

  // ----- Runs of the store -----

  datatype Event = Get(id: string, now: int) | Reap(now: int)

  predicate Ordered(events: seq<Event>) {
    forall i, j :: 0 <= i < j < |events| ==> events[i].now <= events[j].now
  }

  /** Sessions are told apart by the number of the event that created them. */
  function After(ttl: int, events: seq<Event>, n: nat): Table<nat>
    requires n <= |events|
  {
    if n == 0 then map[]
    else
      match events[n - 1]
      case Get(id, now) => Got(After(ttl, events, n - 1), id, now, n - 1)
      case Reap(now) => Reaped(After(ttl, events, n - 1), ttl, now)
  }

  predicate IsGet(events: seq<Event>, i: nat, id: string) {
    i < |events| && events[i].Get? && events[i].id == id
  }

  lemma {:induction false} GetIsKept(ttl: int, events: seq<Event>, i: nat)
    requires i < |events| && events[i].Get?
    ensures events[i].id in After(ttl, events, i + 1)
  {
  }

  /** The session that `Get` number `i` returns. */
  function Returned(ttl: int, events: seq<Event>, i: nat): nat
    requires i < |events| && events[i].Get?
  {
    GetIsKept(ttl, events, i);
    After(ttl, events, i + 1)[events[i].id].session
  }

  predicate Holds(t: Table<nat>, id: string, session: nat, since: int) {
    id in t && t[id].session == session && since <= t[id].lastSeen
  }

  lemma {:induction false} SessionIsHeld(ttl: int, events: seq<Event>, i: nat, n: nat, id: string)
    requires Ordered(events) && IsGet(events, i, id) && i < n <= |events|
    requires events[n - 1].now - events[i].now <= ttl
    ensures Holds(After(ttl, events, n), id, Returned(ttl, events, i), events[i].now)
  {
    if i + 1 < n {
      SessionIsHeld(ttl, events, i, n - 1, id);
    }
  }

  /** A session is never replaced within its ttl: two `Get`s of an id that are at most
      ttl apart return the same session, however reaps fall between them. */
  lemma GetsWithinTtlAgree(ttl: int, events: seq<Event>, i: nat, j: nat, id: string)
    requires Ordered(events) && IsGet(events, i, id) && IsGet(events, j, id) && i <= j
    requires events[j].now - events[i].now <= ttl
    ensures Returned(ttl, events, i) == Returned(ttl, events, j)
  {
    SessionIsHeld(ttl, events, i, j + 1, id);
  }

  /** Mutual exclusion per id: two requests that each end within ttl of their own `Get`
      and overlap in time run on the same session, so its mutex orders them. */
  lemma OverlappingRequestsShareASession(
    ttl: int, events: seq<Event>, i: nat, endOfI: int, j: nat, endOfJ: int, id: string)
    requires Ordered(events) && IsGet(events, i, id) && IsGet(events, j, id)
    requires endOfI - events[i].now <= ttl && endOfJ - events[j].now <= ttl
    requires events[i].now <= endOfJ && events[j].now <= endOfI
    ensures Returned(ttl, events, i) == Returned(ttl, events, j)
  {
    if i <= j {
      GetsWithinTtlAgree(ttl, events, i, j, id);
    } else {
      GetsWithinTtlAgree(ttl, events, j, i, id);
    }
  }

  predicate Follows(ttl: int, events: seq<Event>, i: nat, j: nat) {
    i < j < |events| && events[j].now - events[i].now <= ttl
  }

  /** A conversation that is used at least once per ttl is kept for as long as that lasts. */
  lemma {:induction false} ChainOfGetsAgrees(ttl: int, events: seq<Event>, gets: seq<nat>, id: string, n: nat)
    requires Ordered(events) && n < |gets|
    requires forall k {:trigger gets[k]} :: 0 <= k < |gets| ==> IsGet(events, gets[k], id)
    requires forall k :: 0 < k < |gets| ==> Follows(ttl, events, gets[k - 1], gets[k])
    ensures IsGet(events, gets[0], id) && IsGet(events, gets[n], id)
    ensures Returned(ttl, events, gets[n]) == Returned(ttl, events, gets[0])
  {
    if 0 < n {
      ChainOfGetsAgrees(ttl, events, gets, id, n - 1);
      GetsWithinTtlAgree(ttl, events, gets[n - 1], gets[n], id);
    }
  }

  /** Some reap after event `i`, among the first `n`, finds the session of `Get` number `i` idle. */
  predicate ReapedBetween(ttl: int, events: seq<Event>, i: nat, n: nat)
    requires i < |events| && n <= |events|
  {
    exists r :: i < r < n && events[r].Reap? && ttl < events[r].now - events[i].now
  }

  lemma {:induction false} SessionsAreNumbered(ttl: int, events: seq<Event>, n: nat, id: string)
    requires n <= |events|
    ensures id in After(ttl, events, n) ==> After(ttl, events, n)[id].session < n
  {
    if 0 < n {
      SessionsAreNumbered(ttl, events, n - 1, id);
    }
  }

  lemma {:induction false} HeldExactly(ttl: int, events: seq<Event>, i: nat, n: nat, id: string)
    requires Ordered(events) && IsGet(events, i, id) && i < n <= |events|
    requires forall k :: i < k < n ==> !IsGet(events, k, id)
    ensures var t := After(ttl, events, n);
            if ReapedBetween(ttl, events, i, n) then id !in t
            else id in t && t[id] == Seen(Returned(ttl, events, i), events[i].now)
  {
    if i + 1 < n {
      assert !IsGet(events, n - 1, id);
      HeldExactly(ttl, events, i, n - 1, id);
      assert ReapedBetween(ttl, events, i, n) <==>
             ReapedBetween(ttl, events, i, n - 1) || (events[n - 1].Reap? && ttl < events[n - 1].now - events[i].now);
    } else {
      assert !ReapedBetween(ttl, events, i, n);
    }
  }

  /** Eviction, exactly: the next `Get` of an id returns the same session if and only if
      no reap since the previous one came more than ttl after it. */
  lemma NextGetReturnsTheSameExactly(ttl: int, events: seq<Event>, i: nat, j: nat, id: string)
    requires Ordered(events) && IsGet(events, i, id) && IsGet(events, j, id) && i < j
    requires forall k :: i < k < j ==> !IsGet(events, k, id)
    ensures Returned(ttl, events, j) == Returned(ttl, events, i) <==> !ReapedBetween(ttl, events, i, j)
  {
    HeldExactly(ttl, events, i, j, id);
    SessionsAreNumbered(ttl, events, i + 1, id);
  }
}
